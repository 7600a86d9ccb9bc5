// The few pieces of the .NET base library that the Makefile generator and
// the name-joining helper rely on: ordinal substring search, the extension of
// a file name, string removal with its range check, and the two text sinks
// (StringBuilder, StreamWriter) modelled as growing strings.

module DotNet {

  /** What a .NET call returns: its value, or the ArgumentOutOfRangeException it throws. */
  datatype Result<T> = Success(value: T) | ArgumentOutOfRange

  /** string.Contains with ordinal comparison: `sub` occurs somewhere in `s`. */
  predicate Contains(s: string, sub: string)
    decreases |s|
  {
    |sub| <= |s| && (s[..|sub|] == sub || Contains(s[1..], sub))
  }

  /** `sub` occurs in `s` starting at index `i`. */
  predicate OccursAt(s: string, sub: string, i: int)
  {
    0 <= i && i + |sub| <= |s| && s[i..i + |sub|] == sub
  }

  /** Contains finds exactly the occurrences: it holds when `sub` starts at some index of `s`. */
  lemma {:induction false} ContainsOccurrence(s: string, sub: string)
    ensures Contains(s, sub) <==> exists i :: OccursAt(s, sub, i)
    decreases |s|
  {
    if |sub| <= |s| && s[..|sub|] == sub {
      assert OccursAt(s, sub, 0);
    } else if |sub| <= |s| {
      ContainsOccurrence(s[1..], sub);
      if Contains(s[1..], sub) {
        var i :| OccursAt(s[1..], sub, i);
        assert s[i + 1..i + 1 + |sub|] == s[1..][i..i + |sub|];
        assert OccursAt(s, sub, i + 1);
      }
      if i :| OccursAt(s, sub, i) {
        assert i != 0;
        assert s[1..][i - 1..i - 1 + |sub|] == s[i..i + |sub|];
        assert OccursAt(s[1..], sub, i - 1);
      }
    }
  }

  /** Index of the last '.' in `name`, or -1 when there is none. */
  function LastDot(name: string): (i: int)
    ensures -1 <= i < |name|
    ensures i >= 0 ==> name[i] == '.'
    ensures forall k :: i < k < |name| ==> name[k] != '.'
  {
    if |name| == 0 then -1
    else if name[|name| - 1] == '.' then |name| - 1
    else LastDot(name[..|name| - 1])
  }

  /** FileInfo.Extension of a bare file name: the text from the last '.' to the end, or "" without a '.'. */
  function Extension(name: string): (ext: string)
    ensures ext == [] || (ext[0] == '.' && |ext| <= |name| && name[|name| - |ext|..] == ext)
    ensures forall k :: 0 < k < |ext| ==> ext[k] != '.'
    ensures '.' in name ==> ext != []
  {
    var i := LastDot(name);
    if i < 0 then "" else name[i..]
  }

  /** string.Remove(startIndex, count): the string without `count` characters from `startIndex`. */
  function Removed(s: string, startIndex: int, count: int): (r: Result<string>)
    ensures r.Success? <==> 0 <= startIndex && 0 <= count && startIndex + count <= |s|
    ensures r.Success? ==> |r.value| == |s| - count
    ensures r.Success? ==> r.value[..startIndex] == s[..startIndex]
    ensures r.Success? ==> r.value[startIndex..] == s[startIndex + count..]
  {
    if 0 <= startIndex && 0 <= count && startIndex + count <= |s|
    then Success(s[..startIndex] + s[startIndex + count..])
    else ArgumentOutOfRange
  }

  /** System.Text.StringBuilder, reduced to the operations the helper uses. */
  class StringBuilder {
    var chars: string

    constructor ()
      ensures chars == ""
    {
      chars := "";
    }

    method Append(s: string)
      modifies this
      ensures chars == old(chars) + s
    {
      chars := chars + s;
    }

    /** Throws (returns false, leaving the text alone) when the range is not inside the text. */
    method Remove(startIndex: int, count: int) returns (ok: bool)
      modifies this
      ensures ok == Removed(old(chars), startIndex, count).Success?
      ensures chars == if ok then Removed(old(chars), startIndex, count).value else old(chars)
    {
      var r := Removed(chars, startIndex, count);
      ok := r.Success?;
      if ok {
        chars := r.value;
      }
    }
  }

  /** System.IO.StreamWriter on a freshly created (truncated) file: `written` is the file's text. */
  class StreamWriter {
    var written: string

    constructor ()
      ensures written == ""
    {
      written := "";
    }

    method Write(s: string)
      modifies this
      ensures written == old(written) + s
    {
      written := written + s;
    }
  }
}
