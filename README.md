# QCMake Makefile generator, modelled in Dafny

QCMake is a small WPF front end for a QC-to-C# transcompiler. Its one piece of
real logic is the "Make Makefile" button: it lists the code directory, keeps
the QC sources (files whose extension contains `qc`), derives each output name
by dropping the last three characters and appending `.cs`, and writes a
`Makefile` with

- a header binding `BEGIN_VALUES` to the quoted compiler path plus `--file`
  and `ENDING_FLAGS` to `--language CS`,
- one rule `<out>: <source>` per QC source, with the tab-indented recipe
  `$(BEGIN_VALUES) $< $(ENDING_FLAGS)`,
- an `all:` target listing every output separated by `", "`, whose recipe
  echoes `All done.`,
- a `clean:` target whose recipe is `del` followed by every output and a space.

Beside it sits `ToString`, the helper that joins the chosen code files with
`",\n"` by appending the separator after every name and removing the last two
characters.

The model has four modules:

- `DotNet` (`dotnet.dfy`): the library behaviour the code relies on. Ordinal
  `string.Contains`, `FileInfo.Extension` of a bare file name, `string.Remove`
  with its range check (`Result.ArgumentOutOfRange` stands for the exception),
  and the two text sinks, `StringBuilder` and `StreamWriter`. Each sink is a
  class whose `string` field its methods extend.
- `Joining` (`joining.dfy`): `Join` (a separator between neighbours) and
  `Terminated` (a separator after every name), with the lemmas that relate
  the two layouts.
- `Makefile` (`makefile.dfy`): the declarative description of the file.
  `SelectSources` is the LINQ `where` and `OutputName`/`Targets` the `select`.
  `MakefileText` assembles `Header`, `Rules`, `AllSection` and `CleanSection`.
  The lemmas here state what the generator promises.
- `MainWindow` (`main_window.dfy`): the two operations as imperative
  methods. `ToString` appends to a `StringBuilder` in a loop and then
  truncates it. `MakeMakefile` writes to a fresh `StreamWriter`, with one
  method per `for` loop of the source. Both are proved equal to the
  specification functions.

The directory listing is an input sequence of file names, in enumeration
order. The compiler path is an input. The line break inside the verbatim
header string is the parameter `eol`, because it depends on how the source
file was saved. `MakeMakefile` returns the text the writer received.

The language is fixed to `CS`: every output ends in `.cs`, there is no
per-language extension table, no process runner for `make all` /
`make clean` (those buttons are empty) and no typed errors. So `bar.hqc`
becomes `bar..cs`, not `bar.hpp` (`Makefile.ExampleOutputNames`). The `all:`
prerequisites keep the `", "` separator as written.

## Model

| member | source | states |
|---|---|---|
| `DotNet.ContainsOccurrence` | qcmake/MainWindow.xaml.cs:96 | `Contains(s, sub)` holds exactly when `sub` occurs at some index of `s` (ordinal substring test) |
| `DotNet.LastDot` | qcmake/MainWindow.xaml.cs:96 | the index of the last `.` of a name, or -1 when there is none: every later character is not a dot |
| `DotNet.Extension` | qcmake/MainWindow.xaml.cs:96 | a file's extension is empty or a suffix of its name that starts with `.` and holds no other `.`; it is non-empty whenever the name has a `.` |
| `DotNet.Removed` | qcmake/MainWindow.xaml.cs:22 | `Remove(start, count)` succeeds exactly when the range lies inside the text, and then keeps everything before and after the range |
| `DotNet.StringBuilder.constructor` | qcmake/MainWindow.xaml.cs:16 | a new builder is empty |
| `DotNet.StringBuilder.Append` | qcmake/MainWindow.xaml.cs:19-20 | the builder's text grows by exactly the appended string |
| `DotNet.StringBuilder.Remove` | qcmake/MainWindow.xaml.cs:22 | reports failure and leaves the text unchanged on an out-of-range request; otherwise the text loses exactly that range |
| `DotNet.StreamWriter.constructor` | qcmake/MainWindow.xaml.cs:85 | the freshly created Makefile is empty |
| `DotNet.StreamWriter.Write` | qcmake/MainWindow.xaml.cs:87-92 | the file's text grows by exactly the written string |
| `Joining.JoinLength` | qcmake/MainWindow.xaml.cs:16-23 | joining n ≥ 1 names has the names' total length plus n−1 separators |
| `Joining.JoinEdges` | qcmake/MainWindow.xaml.cs:16-23 | a joined list starts with its first name and ends with its last name: no leading or trailing separator |
| `Joining.JoinAppend` | qcmake/MainWindow.xaml.cs:107-111 | joining two non-empty lists puts exactly one separator between the two joined halves |
| `Joining.TerminatedThenLast` | qcmake/MainWindow.xaml.cs:107-111 | writing each name but the last with a separator after it, then the last name alone, gives the joined list |
| `Joining.TerminatedIsJoinPlusSeparator` | qcmake/MainWindow.xaml.cs:17-22 | a separator after every name is the joined list plus one trailing separator, for a non-empty list |
| `Makefile.QcSourceIsLongEnough` | qcmake/MainWindow.xaml.cs:96-100 | a name whose extension contains `qc` has at least three characters, so removing the last three never throws |
| `Makefile.SelectSourcesMembers` | qcmake/MainWindow.xaml.cs:94-97 | a name is selected if and only if it is listed and its extension contains `qc` |
| `Makefile.SelectSourcesAppend` | qcmake/MainWindow.xaml.cs:94-97 | selecting from two listings one after the other gives the two selections one after the other (enumeration order is kept) |
| `Makefile.SelectSourcesIdempotent` | qcmake/MainWindow.xaml.cs:94-97 | selecting again from a selection changes nothing |
| `Makefile.SelectSourcesOfOther` | qcmake/MainWindow.xaml.cs:96 | a single entry that is not a QC source selects nothing |
| `Makefile.SelectSourcesDrop` | qcmake/MainWindow.xaml.cs:94-97 | a stretch of the listing that selects nothing can be removed without changing the selection |
| `Makefile.SelectSourcesSkips` | qcmake/MainWindow.xaml.cs:94-97 | an entry that is not a QC source has no effect on the selection, wherever it is listed |
| `Makefile.SelectedAreLongEnough` | qcmake/MainWindow.xaml.cs:98-100 | every selected name has at least three characters |
| `Makefile.OutputName` | qcmake/MainWindow.xaml.cs:100 | the output name has the source name's length, agrees with it except in the last three characters, and ends in `.cs` |
| `Makefile.Targets` | qcmake/MainWindow.xaml.cs:98-100 | there is one output name per selected source, in the same order; output i has source i's length, agrees with it except in the last three characters, and ends in `.cs` |
| `Makefile.TargetsSnoc` | qcmake/MainWindow.xaml.cs:94-100 | listing one more entry appends it to the selection and its output name to the targets exactly when it is a QC source, and changes neither otherwise |
| `Makefile.RulesAppend` | qcmake/MainWindow.xaml.cs:101-105 | the rules for two lists of (output, source) pairs are the rules of the first list followed by the rules of the second |
| `Makefile.RulesSnoc` | qcmake/MainWindow.xaml.cs:101-105 | listing one more entry appends exactly the rule `<out>: <entry>` plus recipe when it is a QC source, and nothing otherwise |
| `Makefile.MakefileIgnoresOtherEntries` | qcmake/MainWindow.xaml.cs:93-115 | removing an entry that is not a QC source from the directory leaves the whole Makefile unchanged |
| `Makefile.MakefileFromSelection` | qcmake/MainWindow.xaml.cs:93-115 | the Makefile for a directory equals the Makefile for just its QC sources |
| `Makefile.AllSectionShape` | qcmake/MainWindow.xaml.cs:106-112 | with no files the `all` line is just `all: `; with one it is that output alone; otherwise the outputs but the last joined by `", "`, then `", "` and the last output, then the echo recipe |
| `Makefile.CleanSectionShape` | qcmake/MainWindow.xaml.cs:113-115 | `clean` is `"clean: \n\tdel "` followed by the outputs separated by single spaces with one trailing space, or nothing with no files |
| `Makefile.MakefileStartsWithHeader` | qcmake/MainWindow.xaml.cs:87-92 | whatever the directory holds, the Makefile opens with `BEGIN_VALUES = "<compiler>" --file` and `ENDING_FLAGS = --language CS` |
| `Makefile.ExampleFoo` | qcmake/MainWindow.xaml.cs:96 | `foo.qc` has extension `.qc` and is selected |
| `Makefile.ExampleBar` | qcmake/MainWindow.xaml.cs:96 | `bar.hqc` has extension `.hqc` and is selected |
| `Makefile.ExampleReadme` | qcmake/MainWindow.xaml.cs:96 | `readme.txt` has extension `.txt` and is not selected |
| `Makefile.ExampleOutputNames` | qcmake/MainWindow.xaml.cs:100 | `foo.qc` compiles to `foo.cs`, and `bar.hqc` to `bar..cs` |
| `Makefile.SelectTwoOfThree` | qcmake/MainWindow.xaml.cs:94-97 | two QC sources followed by another entry select the two sources, in order |
| `Makefile.ExampleSelection` | qcmake/MainWindow.xaml.cs:94-100 | from `foo.qc`, `bar.hqc`, `readme.txt` the sources are `foo.qc`, `bar.hqc` and the outputs `foo.cs`, `bar..cs` |
| `Makefile.ExampleRules` | qcmake/MainWindow.xaml.cs:101-105 | the rules for that directory are `foo.cs: foo.qc` then `bar..cs: bar.hqc`, each with the recipe |
| `Makefile.ExampleAll` | qcmake/MainWindow.xaml.cs:106-112 | the `all` line for that directory is `all: foo.cs, bar..cs` |
| `Makefile.ExampleClean` | qcmake/MainWindow.xaml.cs:113-115 | the `clean` recipe for that directory is `del foo.cs bar..cs ` |
| `Makefile.ExampleMakefile` | qcmake/MainWindow.xaml.cs:83-117 | the complete Makefile for that directory, section by section |
| `MainWindow.ToString` | qcmake/MainWindow.xaml.cs:14-24 | fails with ArgumentOutOfRange exactly on an empty array; otherwise returns the names joined by `",\n"`, a single name unchanged, of length total + 2·(n−1) |
| `MainWindow.MakeMakefile` | qcmake/MainWindow.xaml.cs:83-117 | the text written to the Makefile is exactly `MakefileText` of the compiler path and the directory listing |
| `MainWindow.WriteRules` | qcmake/MainWindow.xaml.cs:101-105 | the first loop appends exactly the rules for the (output, source) pairs, in order |
| `MainWindow.WriteAllTarget` | qcmake/MainWindow.xaml.cs:106-112 | the second loop and its surrounding writes append exactly the `all` section |
| `MainWindow.WriteCleanTarget` | qcmake/MainWindow.xaml.cs:113-115 | the third loop and the write before it append exactly the `clean` section |

## Left out

- The file and folder picker handlers (qcmake/MainWindow.xaml.cs:28-81) are left out. They only copy a path chosen in a dialog into a text box.
- Filesystem I/O is left out. The model does not open `CodeDir.Text + "\Makefile"`, does not dispose the writer, and does not call `DirectoryInfo.GetFiles`. The listing is a parameter, in whatever order the file system enumerates it, and the result is the text the file receives. I/O exceptions (missing directory, locked file) are not modelled.
- The bytes of the line break inside the verbatim header are not fixed. They are the parameter `eol` of `Header`, because they depend on how the source file was saved.
- `Make_Project_Button_Click` and `Clean_Project_Button_Click` (qcmake/MainWindow.xaml.cs:119-127) are empty. There is no process to run and no exit code to model.
- The window constructor and the WPF plumbing (qcmake/MainWindow.xaml.cs:26) are left out.
- DotNet.Extension: works on bare file names with no directory separator, which is what `FileInfo.Name` gives here. A name ending in `.` gets the extension `.`; like `""`, it does not contain `qc`.
- DotNet.Removed: lengths and indices count characters (Unicode scalar values), not the UTF-16 code units that .NET's `Length` and `Remove` count. The two agree for names made of characters in the Basic Multilingual Plane.
- Makefile.OutputName: for the same reason, a name holding a character outside the Basic Multilingual Plane is renamed differently. The model turns `a.qc😀` into `a..cs`, while .NET, counting 6 code units, removes from index 3 and gives `a.q.cs`. For `a.qc😀xy`, .NET would cut the surrogate pair apart, which a Dafny `string` cannot represent. Which files are selected is not affected, because `.` and `qc` are ASCII.
- MainWindow.ToString: its length clause counts characters, not UTF-16 code units.
- MainWindow.MakeMakefile: the three loops of the handler are three helper methods on the same writer rather than one method body. Each helper writes in the same order as the source.
