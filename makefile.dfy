// What the "Make Makefile" button writes, described declaratively: which
// directory entries are QC sources, what each one compiles to, and the text of
// the Makefile as header, rules, the `all` target and the `clean` target.

module Makefile {
  import opened DotNet
  import opened Joining

  /** A directory entry is a QC source when its extension contains "qc" (".qc", ".hqc", ".qcx", ...). */
  predicate IsQcSource(name: string)
  {
    Contains(Extension(name), "qc")
  }

  /**
   * A QC source name has at least three characters: its extension starts with
   * '.' and holds "qc" after it. So removing the last three characters never throws.
   */
  lemma QcSourceIsLongEnough(name: string)
    requires IsQcSource(name)
    ensures |name| >= 3
    ensures Removed(name, |name| - 3, 3).Success?
  {
    var ext := Extension(name);
    assert ext[..2] != "qc" by {
      assert ext[..2][0] == '.';
    }
    assert Contains(ext[1..], "qc");
  }

  /** The directory entries kept by the `where` clause, in enumeration order. */
  function SelectSources(listing: seq<string>): seq<string>
  {
    if listing == [] then []
    else
      var n := |listing| - 1;
      SelectSources(listing[..n]) + if IsQcSource(listing[n]) then [listing[n]] else []
  }

  /** Exactly the QC sources of the listing are selected. */
  lemma {:induction false} SelectSourcesMembers(listing: seq<string>)
    ensures forall f :: f in SelectSources(listing) <==> f in listing && IsQcSource(f)
  {
    if listing != [] {
      var n := |listing| - 1;
      assert listing == listing[..n] + [listing[n]];
      SelectSourcesMembers(listing[..n]);
    }
  }

  /** Selection distributes over concatenation: it keeps the enumeration order. */
  lemma {:induction false} SelectSourcesAppend(a: seq<string>, b: seq<string>)
    ensures SelectSources(a + b) == SelectSources(a) + SelectSources(b)
  {
    if b == [] {
      assert a + b == a;
    } else {
      var n := |b| - 1;
      assert (a + b)[..|a + b| - 1] == a + b[..n];
      SelectSourcesAppend(a, b[..n]);
    }
  }

  /** Selecting from a selection changes nothing. */
  lemma {:induction false} SelectSourcesIdempotent(listing: seq<string>)
    ensures SelectSources(SelectSources(listing)) == SelectSources(listing)
  {
    if listing != [] {
      var n := |listing| - 1;
      var kept := if IsQcSource(listing[n]) then [listing[n]] else [];
      SelectSourcesIdempotent(listing[..n]);
      SelectSourcesAppend(SelectSources(listing[..n]), kept);
      if kept != [] {
        assert kept == [] + [kept[0]];
      }
    }
  }

  /** A stretch of the listing from which nothing is selected can be dropped. */
  lemma SelectSourcesDrop(before: seq<string>, middle: seq<string>, after: seq<string>)
    requires SelectSources(middle) == []
    ensures SelectSources(before + middle + after) == SelectSources(before + after)
  {
    SelectSourcesAppend(before + middle, after);
    SelectSourcesAppend(before, middle);
    SelectSourcesAppend(before, after);
    assert SelectSources(before) + [] == SelectSources(before);
  }

  /** An entry that is not a QC source has no effect on the selection wherever it is listed. */
  lemma SelectSourcesSkips(before: seq<string>, entry: string, after: seq<string>)
    requires !IsQcSource(entry)
    ensures SelectSources(before + [entry] + after) == SelectSources(before + after)
  {
    SelectSourcesOfOther(entry);
    SelectSourcesDrop(before, [entry], after);
  }

  lemma SelectSourcesOfOther(entry: string)
    requires !IsQcSource(entry)
    ensures SelectSources([entry]) == []
  {
    assert [entry][..0] == [];
  }

  /** Every selected entry can lose its last three characters. */
  lemma SelectedAreLongEnough(listing: seq<string>)
    ensures forall i :: 0 <= i < |SelectSources(listing)| ==> |SelectSources(listing)[i]| >= 3
  {
    var files := SelectSources(listing);
    SelectSourcesMembers(listing);
    forall i | 0 <= i < |files|
      ensures |files[i]| >= 3
    {
      assert files[i] in files;
      QcSourceIsLongEnough(files[i]);
    }
  }

  /** `name.Remove(name.Length - 3, 3) + ".cs"`: the last three characters become ".cs". */
  function OutputName(name: string): (out: string)
    requires |name| >= 3
    ensures |out| == |name|
    ensures out[..|name| - 3] == name[..|name| - 3]
    ensures EndsWith(out, ".cs")
  {
    Removed(name, |name| - 3, 3).value + ".cs"
  }

  /** The `select` clause: one output name per selected source, in the same order. */
  function OutputNames(files: seq<string>): seq<string>
    requires forall i :: 0 <= i < |files| ==> |files[i]| >= 3
  {
    seq(|files|, i requires 0 <= i < |files| => OutputName(files[i]))
  }

  /** Recipe line of every per-file rule (a tab before the command, a blank line after). */
  const Recipe := "\n\t$(BEGIN_VALUES) $< $(ENDING_FLAGS)\n\n"

  /** Recipe line of the `all` target. */
  const AllRecipe := "\n\techo \"All done.\"\n\n"

  /** Start of the `clean` target, up to its first file name. */
  const CleanHead := "clean: \n\tdel "

  /**
   * The two variable bindings at the top. `eol` is the line break the
   * verbatim string carries, which is whatever the source file was saved with.
   */
  function Header(eol: string, qcExeLocation: string): string
  {
    eol + "BEGIN_VALUES = \"" + qcExeLocation + "\" --file" + eol
    + "ENDING_FLAGS = --language CS" + eol + eol
  }

  /** The make rule that builds `target` from `source`. */
  function Rule(target: string, source: string): string
  {
    target + ": " + source + Recipe
  }

  /** One rule per (target, source) pair, in order. */
  function Rules(targets: seq<string>, sources: seq<string>): string
    requires |targets| == |sources|
  {
    if sources == [] then ""
    else
      var n := |sources| - 1;
      Rules(targets[..n], sources[..n]) + Rule(targets[n], sources[n])
  }

  /** The `all` target: every output, separated by ", ". */
  function AllSection(targets: seq<string>): string
  {
    "all: " + Join(targets, ", ") + AllRecipe
  }

  /** The `clean` target: `del` followed by every output and a space. */
  function CleanSection(targets: seq<string>): string
  {
    CleanHead + Terminated(targets, " ")
  }

  /** The output names of the listing's QC sources, in enumeration order (the `csFiles` array). */
  function Targets(listing: seq<string>): (targets: seq<string>)
    ensures |targets| == |SelectSources(listing)|
    ensures forall i :: 0 <= i < |targets| ==>
              var source := SelectSources(listing)[i];
              |targets[i]| == |source| && |source| >= 3
              && targets[i][..|source| - 3] == source[..|source| - 3] && EndsWith(targets[i], ".cs")
  {
    SelectedAreLongEnough(listing);
    OutputNames(SelectSources(listing))
  }

  /** The whole Makefile written for a directory whose entries are `listing`. */
  function MakefileText(eol: string, qcExeLocation: string, listing: seq<string>): string
  {
    var files := SelectSources(listing);
    var targets := Targets(listing);
    Header(eol, qcExeLocation) + Rules(targets, files) + AllSection(targets) + CleanSection(targets)
  }

  /** Listing one more entry adds its output name at the end of the targets exactly when it is a QC source. */
  lemma TargetsSnoc(listing: seq<string>, entry: string)
    ensures SelectSources(listing + [entry])
         == SelectSources(listing) + if IsQcSource(entry) then [entry] else []
    ensures Targets(listing + [entry])
         == Targets(listing) + if IsQcSource(entry) then (QcSourceIsLongEnough(entry); [OutputName(entry)]) else []
  {
    assert (listing + [entry])[..|listing|] == listing;
  }

  /** Rules of two lists of pairs, one after the other, are the rules of the joined lists. */
  lemma {:induction false} RulesAppend(t1: seq<string>, s1: seq<string>, t2: seq<string>, s2: seq<string>)
    requires |t1| == |s1| && |t2| == |s2|
    ensures Rules(t1 + t2, s1 + s2) == Rules(t1, s1) + Rules(t2, s2)
  {
    if s2 == [] {
      assert t1 + t2 == t1 && s1 + s2 == s1;
    } else {
      var n := |s2| - 1;
      var t, s := t1 + t2, s1 + s2;
      var m := |s| - 1;
      assert t[..m] == t1 + t2[..n] && t[m] == t2[n];
      assert s[..m] == s1 + s2[..n] && s[m] == s2[n];
      RulesAppend(t1, s1, t2[..n], s2[..n]);
      var front, back, last := Rules(t1, s1), Rules(t2[..n], s2[..n]), Rule(t2[n], s2[n]);
      assert Rules(t, s) == front + back + last;
      assert Rules(t2, s2) == back + last;
      assert front + back + last == front + (back + last);
    }
  }

  /**
   * The rules part grows by one rule, `<out>: <entry>`, for every QC source
   * listed, in enumeration order, and by nothing for any other entry.
   */
  lemma RulesSnoc(listing: seq<string>, entry: string)
    ensures Rules(Targets(listing + [entry]), SelectSources(listing + [entry]))
         == Rules(Targets(listing), SelectSources(listing))
            + if IsQcSource(entry) then (QcSourceIsLongEnough(entry); Rule(OutputName(entry), entry)) else ""
  {
    TargetsSnoc(listing, entry);
    if IsQcSource(entry) {
      RulesAppend(Targets(listing), SelectSources(listing), [OutputName(entry)], [entry]);
      assert Rules([OutputName(entry)], [entry]) == Rule(OutputName(entry), entry) by {
        assert [entry][..0] == [];
      }
    } else {
      assert Targets(listing) + [] == Targets(listing);
      assert SelectSources(listing) + [] == SelectSources(listing);
    }
  }

  /**
   * The Makefile depends on the directory only through its QC sources: other
   * entries appear nowhere in it, not even by their position.
   */
  lemma MakefileIgnoresOtherEntries(eol: string, qcExeLocation: string, before: seq<string>, entry: string, after: seq<string>)
    requires !IsQcSource(entry)
    ensures MakefileText(eol, qcExeLocation, before + [entry] + after)
         == MakefileText(eol, qcExeLocation, before + after)
  {
    SelectSourcesSkips(before, entry, after);
  }

  /** Generating from the selection alone gives the same Makefile. */
  lemma MakefileFromSelection(eol: string, qcExeLocation: string, listing: seq<string>)
    ensures MakefileText(eol, qcExeLocation, SelectSources(listing)) == MakefileText(eol, qcExeLocation, listing)
  {
    SelectSourcesIdempotent(listing);
  }

  /**
   * The `all` target lists exactly the output names, in rule order, separated
   * by ", ": with no file it is "all: " alone, otherwise it starts with the
   * first output and ends with the last one.
   */
  lemma AllSectionShape(targets: seq<string>)
    ensures targets == [] ==> AllSection(targets) == "all: " + AllRecipe
    ensures |targets| == 1 ==> AllSection(targets) == "all: " + targets[0] + AllRecipe
    ensures |targets| >= 2 ==>
              AllSection(targets)
              == "all: " + Join(targets[..|targets| - 1], ", ") + ", " + targets[|targets| - 1] + AllRecipe
  {
    if |targets| >= 2 {
      var n := |targets| - 1;
      assert targets == targets[..n] + [targets[n]];
      JoinAppend(targets[..n], [targets[n]], ", ");
    }
  }

  /**
   * The `clean` recipe is `del` and the outputs, each followed by one space:
   * with outputs, they are separated by single spaces and one space trails.
   */
  lemma CleanSectionShape(targets: seq<string>)
    ensures targets == [] ==> CleanSection(targets) == "clean: \n\tdel "
    ensures targets != [] ==> CleanSection(targets) == "clean: \n\tdel " + Join(targets, " ") + " "
  {
    if targets != [] {
      TerminatedIsJoinPlusSeparator(targets, " ");
    }
  }

  /**
   * Whatever the directory holds, the Makefile opens with the same two
   * bindings: BEGIN_VALUES is the quoted compiler path followed by --file, and
   * ENDING_FLAGS is --language CS.
   */
  lemma MakefileStartsWithHeader(eol: string, qcExeLocation: string, listing: seq<string>)
    ensures eol + "BEGIN_VALUES = \"" + qcExeLocation + "\" --file" + eol + "ENDING_FLAGS = --language CS" + eol + eol
            <= MakefileText(eol, qcExeLocation, listing)
  {
  }

  /** foo.qc has extension ".qc" and is a QC source. */
  lemma ExampleFoo()
    ensures Extension("foo.qc") == ".qc" && IsQcSource("foo.qc")
  {
    assert LastDot("foo.") == 3 && LastDot("foo.q") == 3;
    assert Contains("qc", "qc");
  }

  /** bar.hqc has extension ".hqc" and is a QC source. */
  lemma ExampleBar()
    ensures Extension("bar.hqc") == ".hqc" && IsQcSource("bar.hqc")
  {
    assert LastDot("bar.") == 3 && LastDot("bar.h") == 3 && LastDot("bar.hq") == 3;
    assert Contains("qc", "qc");
    assert Contains("hqc", "qc");
  }

  /** readme.txt has extension ".txt", which does not contain "qc". */
  lemma ExampleReadme()
    ensures Extension("readme.txt") == ".txt" && !IsQcSource("readme.txt")
  {
    assert LastDot("readme.") == 6 && LastDot("readme.t") == 6 && LastDot("readme.tx") == 6;
    assert !Contains("t", "qc");
    assert "xt"[1..] == "t" && "xt"[..2][0] != 'q';
    assert !Contains("xt", "qc");
    assert "txt"[1..] == "xt" && "txt"[..2][0] != 'q';
    assert !Contains("txt", "qc");
  }

  /** Removing three characters turns "foo.qc" into "foo.cs" but "bar.hqc" into "bar..cs". */
  lemma ExampleOutputNames()
    ensures OutputName("foo.qc") == "foo.cs"
    ensures OutputName("bar.hqc") == "bar..cs"
  {
    assert "foo.qc"[..3] == "foo";
    assert "bar.hqc"[..4] == "bar.";
  }

  /** Two QC sources followed by another entry: the sources are kept, in order. */
  lemma SelectTwoOfThree(a: string, b: string, c: string)
    requires IsQcSource(a) && IsQcSource(b) && !IsQcSource(c)
    ensures SelectSources([a, b, c]) == [a, b]
  {
    assert [a][..0] == [];
    assert SelectSources([a]) == [a];
    assert [a, b][..1] == [a];
    assert SelectSources([a, b]) == [a, b];
    assert [a, b, c][..2] == [a, b];
  }

  /** In a directory holding foo.qc, bar.hqc and readme.txt, the text file is left out. */
  lemma ExampleSelection()
    ensures SelectSources(["foo.qc", "bar.hqc", "readme.txt"]) == ["foo.qc", "bar.hqc"]
    ensures Targets(["foo.qc", "bar.hqc", "readme.txt"]) == ["foo.cs", "bar..cs"]
  {
    ExampleFoo();
    ExampleBar();
    ExampleReadme();
    SelectTwoOfThree("foo.qc", "bar.hqc", "readme.txt");
    ExampleOutputNames();
    assert OutputNames(["foo.qc", "bar.hqc"]) == ["foo.cs", "bar..cs"];
  }

  /** One rule for each of that directory's sources, in order. */
  lemma ExampleRules()
    ensures Rules(["foo.cs", "bar..cs"], ["foo.qc", "bar.hqc"])
         == "foo.cs: foo.qc" + Recipe + "bar..cs: bar.hqc" + Recipe
  {
    assert ["foo.cs", "bar..cs"][..1] == ["foo.cs"] && ["foo.qc", "bar.hqc"][..1] == ["foo.qc"];
    assert ["foo.cs"][..0] == [] && ["foo.qc"][..0] == [];
  }

  /** The `all` target of that directory lists its two outputs with ", " between them. */
  lemma ExampleAll()
    ensures AllSection(["foo.cs", "bar..cs"]) == "all: foo.cs, bar..cs" + AllRecipe
  {
    assert ["foo.cs", "bar..cs"][1..] == ["bar..cs"];
  }

  /** The `clean` target of that directory deletes its two outputs, each followed by a space. */
  lemma ExampleClean()
    ensures CleanSection(["foo.cs", "bar..cs"]) == CleanHead + "foo.cs bar..cs "
  {
    assert ["foo.cs", "bar..cs"][..1] == ["foo.cs"] && ["foo.cs"][..0] == [];
  }

  /** The whole Makefile for that directory. */
  lemma ExampleMakefile(eol: string, qcExeLocation: string)
    ensures MakefileText(eol, qcExeLocation, ["foo.qc", "bar.hqc", "readme.txt"])
         == Header(eol, qcExeLocation)
            + ("foo.cs: foo.qc" + Recipe + "bar..cs: bar.hqc" + Recipe)
            + ("all: foo.cs, bar..cs" + AllRecipe)
            + (CleanHead + "foo.cs bar..cs ")
  {
    var listing := ["foo.qc", "bar.hqc", "readme.txt"];
    ExampleSelection();
    ExampleRules();
    ExampleAll();
    ExampleClean();
    var rules := Rules(Targets(listing), SelectSources(listing));
    var all := AllSection(Targets(listing));
    var clean := CleanSection(Targets(listing));
    assert MakefileText(eol, qcExeLocation, listing) == Header(eol, qcExeLocation) + rules + all + clean;
  }
}
