// Two ways of laying names out in text: separated (a separator between
// consecutive names, as in a comma-separated list) and terminated (a
// separator after every name, as the writers emit them before any trimming).

module Joining {

  predicate EndsWith(s: string, suffix: string)
  {
    |suffix| <= |s| && s[|s| - |suffix|..] == suffix
  }

  /** Total number of characters in `names`. */
  function SumLengths(names: seq<string>): nat
  {
    if names == [] then 0 else |names[0]| + SumLengths(names[1..])
  }

  /** The names with `sep` between each pair of neighbours, and nothing before the first or after the last. */
  function Join(names: seq<string>, sep: string): string
  {
    if names == [] then ""
    else if |names| == 1 then names[0]
    else names[0] + sep + Join(names[1..], sep)
  }

  /** A joined list holds its names' characters and one separator fewer than it has names. */
  lemma {:induction false} JoinLength(names: seq<string>, sep: string)
    requires names != []
    ensures |Join(names, sep)| + |sep| == SumLengths(names) + |sep| * |names|
  {
    if |names| > 1 {
      JoinLength(names[1..], sep);
      calc {
        |Join(names, sep)| + |sep|;
        |names[0]| + |sep| + (|Join(names[1..], sep)| + |sep|);
        |names[0]| + |sep| + SumLengths(names[1..]) + |sep| * (|names| - 1);
        { assert |sep| * (|names| - 1) + |sep| == |sep| * |names|; }
        SumLengths(names) + |sep| * |names|;
      }
    }
  }

  /**
   * No leading or trailing separator: the joined text starts with the first
   * name and ends with the last one.
   */
  lemma {:induction false} JoinEdges(names: seq<string>, sep: string)
    requires names != []
    ensures names[0] <= Join(names, sep)
    ensures EndsWith(Join(names, sep), names[|names| - 1])
  {
    if |names| > 1 {
      JoinEdges(names[1..], sep);
      var rest := Join(names[1..], sep);
      var r := names[0] + sep + rest;
      assert r[|r| - |rest|..] == rest;
      assert names[1..][|names| - 2] == names[|names| - 1];
    }
  }

  /** Every name followed by `sep`, in order. */
  function Terminated(names: seq<string>, sep: string): string
  {
    if names == [] then ""
    else
      var n := |names| - 1;
      Terminated(names[..n], sep) + names[n] + sep
  }

  /** Joining two non-empty lists puts exactly one separator between the two joined halves. */
  lemma {:induction false} JoinAppend(s: seq<string>, t: seq<string>, sep: string)
    requires s != [] && t != []
    ensures Join(s + t, sep) == Join(s, sep) + sep + Join(t, sep)
  {
    if |s| > 1 {
      assert (s + t)[1..] == s[1..] + t;
      JoinAppend(s[1..], t, sep);
    } else {
      assert (s + t)[1..] == t;
    }
  }

  /** Terminating all but the last name and then writing the last one gives the joined text. */
  lemma {:induction false} TerminatedThenLast(names: seq<string>, last: string, sep: string)
    ensures Terminated(names, sep) + last == Join(names + [last], sep)
  {
    if names != [] {
      var n := |names| - 1;
      assert names == names[..n] + [names[n]];
      TerminatedThenLast(names[..n], names[n], sep);
      JoinAppend(names, [last], sep);
    }
  }

  /** Terminating a non-empty list is joining it and adding one trailing separator. */
  lemma TerminatedIsJoinPlusSeparator(names: seq<string>, sep: string)
    requires names != []
    ensures Terminated(names, sep) == Join(names, sep) + sep
  {
    var n := |names| - 1;
    assert names == names[..n] + [names[n]];
    TerminatedThenLast(names[..n], names[n], sep);
  }
}
