// The two pieces of logic behind the main window: the helper that turns the
// chosen code files into the text shown in the "code files" box, and the
// "Make Makefile" handler that writes the Makefile for the code directory.
// The directory listing, the compiler path and the header's line break come
// in as parameters; the file's text comes back as the result.

module MainWindow {
  import opened DotNet
  import opened Joining
  import opened Makefile

  /**
   * Appends every name and ",\n" to a StringBuilder, then removes the last two
   * characters. That removal is out of range, and throws, when there is no name.
   */
  method ToString(fileNames: seq<string>) returns (r: Result<string>)
    ensures r.ArgumentOutOfRange? <==> fileNames == []
    ensures fileNames != [] ==> r == Success(Join(fileNames, ",\n"))
    ensures |fileNames| == 1 ==> r == Success(fileNames[0])
    ensures r.Success? ==> |r.value| + 2 == SumLengths(fileNames) + 2 * |fileNames|
  {
    var retval := new StringBuilder();
    for i := 0 to |fileNames|
      invariant retval.chars == Terminated(fileNames[..i], ",\n")
    {
      assert fileNames[..i + 1][..i] == fileNames[..i];
      retval.Append(fileNames[i]);
      retval.Append(",\n");
    }
    assert fileNames[..|fileNames|] == fileNames;
    if fileNames != [] {
      TerminatedIsJoinPlusSeparator(fileNames, ",\n");
      JoinLength(fileNames, ",\n");
      assert retval.chars[..|retval.chars| - 2] == Join(fileNames, ",\n");
    }
    ghost var appended := retval.chars;
    var ok := retval.Remove(|retval.chars| - 2, 2);
    if ok {
      assert retval.chars == retval.chars[..|appended| - 2] == appended[..|appended| - 2];
      r := Success(retval.chars);
    } else {
      r := ArgumentOutOfRange;
    }
  }

  /**
   * Writes the header, one rule per QC source, the `all` target and the
   * `clean` target, each by appending to the writer of a fresh Makefile.
   */
  method MakeMakefile(eol: string, qcExeLocation: string, listing: seq<string>) returns (contents: string)
    ensures contents == MakefileText(eol, qcExeLocation, listing)
  {
    var writer := new StreamWriter();
    var header := Header(eol, qcExeLocation);
    writer.Write(header);
    assert writer.written == header;
    var files := SelectSources(listing);
    var csFiles := Targets(listing);
    WriteRules(writer, csFiles, files);
    ghost var rules := Rules(csFiles, files);
    assert writer.written == header + rules;
    WriteAllTarget(writer, csFiles);
    ghost var all := AllSection(csFiles);
    assert writer.written == header + rules + all;
    WriteCleanTarget(writer, csFiles);
    ghost var clean := CleanSection(csFiles);
    contents := writer.written;
    assert contents == header + rules + all + clean;
  }

  /** The first loop: `<out>: <source>` and the recipe line, for each pair in order. */
  method WriteRules(writer: StreamWriter, csFiles: seq<string>, files: seq<string>)
    requires |csFiles| == |files|
    modifies writer
    ensures writer.written == old(writer.written) + Rules(csFiles, files)
  {
    ghost var done := writer.written;
    for i := 0 to |files|
      invariant writer.written == done + Rules(csFiles[..i], files[..i])
    {
      assert csFiles[..i + 1][..i] == csFiles[..i] && files[..i + 1][..i] == files[..i];
      ghost var before := writer.written;
      writer.Write(csFiles[i] + ": " + files[i]);
      writer.Write(Recipe);
      assert writer.written == before + Rule(csFiles[i], files[i]);
    }
    assert csFiles[..|files|] == csFiles && files[..|files|] == files;
  }

  /** The second loop: "all: ", the outputs with ", " after all but the last, and the echo recipe. */
  method WriteAllTarget(writer: StreamWriter, csFiles: seq<string>)
    modifies writer
    ensures writer.written == old(writer.written) + AllSection(csFiles)
  {
    ghost var done := writer.written;
    writer.Write("all: ");
    for i := 0 to |csFiles|
      invariant i < |csFiles| ==> writer.written == done + "all: " + Terminated(csFiles[..i], ", ")
      invariant i == |csFiles| ==> writer.written == done + "all: " + Join(csFiles, ", ")
    {
      writer.Write(csFiles[i]);
      if i != |csFiles| - 1 {
        writer.Write(", ");
        assert csFiles[..i + 1][..i] == csFiles[..i];
      } else {
        assert csFiles[..i] + [csFiles[i]] == csFiles;
        TerminatedThenLast(csFiles[..i], csFiles[i], ", ");
      }
    }
    ghost var listed := Join(csFiles, ", ");
    writer.Write(AllRecipe);
    assert writer.written == done + ("all: " + listed + AllRecipe);
  }

  /** The third loop: "clean: ", the `del` recipe and every output followed by a space. */
  method WriteCleanTarget(writer: StreamWriter, csFiles: seq<string>)
    modifies writer
    ensures writer.written == old(writer.written) + CleanSection(csFiles)
  {
    ghost var done := writer.written;
    writer.Write(CleanHead);
    for i := 0 to |csFiles|
      invariant writer.written == done + CleanHead + Terminated(csFiles[..i], " ")
    {
      assert csFiles[..i + 1][..i] == csFiles[..i];
      writer.Write(csFiles[i] + " ");
    }
    assert csFiles[..|csFiles|] == csFiles;
  }
}
