/**
 * The list of Python dependencies of Tribler: which requirements file a scope
 * reads, and how the names of the libraries are extracted from its text.
 *
 * The extraction is a pipeline over the text: split it at every '\n', drop
 * the empty lines, cut each line at its first version operator ('>', '<',
 * '=' or '~'), and rename the few packages whose import name differs from
 * their pip name. Nothing is trimmed: a line of blanks is kept as it is.
 */
module Dependencies {
  import opened Wrappers

  /** The members of the `Scope` enumeration. */
  datatype Scope = Core | Gui

  /** The argument given as `scope`: a member of `Scope`, or any other value (say 100). */
  datatype ScopeArg = Member(scope: Scope) | NonMember(value: int)

  /** An `AttributeError`, raised for a value that is not a member of `Scope`. */
  datatype Error = AttributeError

  /** A filesystem path, as the sequence of its components. */
  type Path = seq<string>

  // ---------------------------------------------------------------------------
  // Choosing the requirements file
  // ---------------------------------------------------------------------------

  const CoreRequirements: string := "requirements-core.txt"
  const GuiRequirements: string := "requirements.txt"

  /**
   * The requirements file of a scope, under the root directory of the
   * repository (three levels above the package's `__init__`).
   */
  function PathToRequirementsTxt(root: Path, scope: ScopeArg): (r: Result<Path, Error>)
    ensures r.Failure? <==> scope.NonMember?
    ensures r.Failure? ==> r.error == AttributeError
    ensures r.Success? ==> |r.value| == |root| + 1 && r.value[..|root|] == root
    ensures scope == Member(Core) ==> r.Success? && r.value[|root|] == "requirements-core.txt"
    ensures scope == Member(Gui) ==> r.Success? && r.value[|root|] == "requirements.txt"
  {
    match scope
    case Member(Core) => Success(root + [CoreRequirements])
    case Member(Gui) => Success(root + [GuiRequirements])
    case NonMember(_) => Failure(AttributeError)
  }

  /** The two scopes read two different files in the same directory. */
  lemma ScopesReadDistinctFiles(root: Path)
    ensures PathToRequirementsTxt(root, Member(Core)).Success?
    ensures PathToRequirementsTxt(root, Member(Gui)).Success?
    ensures PathToRequirementsTxt(root, Member(Core)).value != PathToRequirementsTxt(root, Member(Gui)).value
    ensures PathToRequirementsTxt(root, Member(Core)).value[..|root|] == PathToRequirementsTxt(root, Member(Gui)).value[..|root|]
  {
  }

  /**
   * The dependencies of a scope: the libraries named in its requirements
   * file, whose text `readText` gives. A value outside `Scope` raises
   * `AttributeError` when this is called, before any file is read.
   */
  function GetDependencies(root: Path, scope: ScopeArg, readText: Path -> string): (r: Result<seq<string>, Error>)
    ensures r.Failure? <==> scope.NonMember?
    ensures r.Failure? ==> r.error == AttributeError
    ensures r.Success? ==>
      exists p :: PathToRequirementsTxt(root, scope) == Success(p)
        && r.value == ExtractLibrariesFromRequirements(readText(p))
  {
    match PathToRequirementsTxt(root, scope)
    case Failure(e) => Failure(e)
    case Success(p) => Success(ExtractLibrariesFromRequirements(readText(p)))
  }

  // ---------------------------------------------------------------------------
  // Splitting the text into lines
  // ---------------------------------------------------------------------------

  /** The pieces joined with '\n' between them, as Python's `'\n'.join`. */
  function JoinLines(parts: seq<string>): string
  {
    if |parts| == 0 then ""
    else if |parts| == 1 then parts[0]
    else parts[0] + "\n" + JoinLines(parts[1..])
  }

  lemma JoinLinesCons(line: string, rest: seq<string>)
    requires |rest| > 0
    ensures JoinLines([line] + rest) == line + "\n" + JoinLines(rest)
  {
    assert ([line] + rest)[1..] == rest;
  }

  /**
   * The text cut at every '\n', as Python's `text.split('\n')`: there is
   * always one piece more than there are newlines, so the empty text gives
   * one empty piece and a trailing newline gives a last empty piece.
   */
  function SplitLines(s: string): (r: seq<string>)
    ensures |r| > 0
    ensures forall i :: 0 <= i < |r| ==> '\n' !in r[i]
    ensures JoinLines(r) == s
  {
    if |s| == 0 then [""]
    else
      var rest := SplitLines(s[1..]);
      if s[0] == '\n' then
        JoinLinesCons("", rest);
        [""] + rest
      else
        var first := [s[0]] + rest[0];
        assert JoinLines([first] + rest[1..]) == [s[0]] + JoinLines(rest) by {
          if |rest| > 1 {
            JoinLinesCons(first, rest[1..]);
            JoinLinesCons(rest[0], rest[1..]);
            assert rest == [rest[0]] + rest[1..];
          }
        }
        [first] + rest[1..]
  }

  /** Splitting is a homomorphism: a newline in the text separates the pieces of either side. */
  lemma {:induction false} SplitLinesAppend(a: string, b: string)
    ensures SplitLines(a + "\n" + b) == SplitLines(a) + SplitLines(b)
  {
    if |a| == 0 {
      assert a + "\n" + b == "\n" + b;
      assert ("\n" + b)[1..] == b;
    } else {
      assert (a + "\n" + b)[0] == a[0];
      assert (a + "\n" + b)[1..] == a[1..] + "\n" + b;
      SplitLinesAppend(a[1..], b);
    }
  }

  /** A text without newlines is a single line. */
  lemma SplitLinesOfLine(line: string)
    requires '\n' !in line
    ensures SplitLines(line) == [line]
  {
  }

  /** Splitting undoes joining, for pieces that hold no newline. */
  lemma {:induction false} SplitJoinLines(parts: seq<string>)
    requires |parts| > 0
    requires forall i :: 0 <= i < |parts| ==> '\n' !in parts[i]
    ensures SplitLines(JoinLines(parts)) == parts
  {
    if |parts| == 1 {
      SplitLinesOfLine(parts[0]);
    } else {
      SplitJoinLines(parts[1..]);
      SplitLinesAppend(parts[0], JoinLines(parts[1..]));
      SplitLinesOfLine(parts[0]);
      assert parts == [parts[0]] + parts[1..];
    }
  }

  // ---------------------------------------------------------------------------
  // One line: the package name and its import name
  // ---------------------------------------------------------------------------

  /** The version operators at which a requirement line is cut. */
  predicate IsVersionOperator(c: char)
  {
    c == '>' || c == '<' || c == '=' || c == '~'
  }

  /**
   * The package named by a requirement line: the line up to its first
   * version operator, or the whole line when it has none (the first piece
   * of `re.split(r'[><=~]', line, maxsplit=1)`), found by a scan of the
   * characters.
   */
  function PackageName(line: string): (r: string)
    ensures r <= line
    ensures forall i :: 0 <= i < |r| ==> !IsVersionOperator(r[i])
    ensures |r| < |line| ==> IsVersionOperator(line[|r|])
  {
    if |line| == 0 || IsVersionOperator(line[0]) then ""
    else [line[0]] + PackageName(line[1..])
  }

  /** Pip packages whose import name is not their pip name. */
  const PackageToImportMapping: map<string, string> := map["Faker" := "faker", "sentry-sdk" := "sentry_sdk"]

  /** The import name of a pip package: `package_to_import_mapping.get(p, p)`. */
  function ImportName(package: string): (r: string)
    ensures package == "Faker" ==> r == "faker"
    ensures package == "sentry-sdk" ==> r == "sentry_sdk"
    ensures package != "Faker" && package != "sentry-sdk" ==> r == package
  {
    if package in PackageToImportMapping then PackageToImportMapping[package] else package
  }

  /**
   * Renaming follows the mapping exactly: a package is renamed if and only
   * if it is one of the mapping's keys, and renaming twice is renaming once,
   * since no import name is itself a key.
   */
  lemma ImportNameFollowsMapping(package: string)
    ensures ImportName(package) != package <==> package in PackageToImportMapping
    ensures package in PackageToImportMapping <==> package == "Faker" || package == "sentry-sdk"
    ensures ImportName(ImportName(package)) == ImportName(package)
  {
  }

  /**
   * The library a single requirement line contributes: its package name,
   * unless that is one of the renamed packages, and never a version operator.
   */
  function LibraryOfLine(line: string): (r: string)
    ensures r <= line || PackageName(line) in PackageToImportMapping
    ensures forall i :: 0 <= i < |r| ==> !IsVersionOperator(r[i])
  {
    ImportName(PackageName(line))
  }

  /** What a line contributes to the output: nothing when it is empty. */
  function LibrariesOfLine(line: string): seq<string>
  {
    if line == "" then [] else [LibraryOfLine(line)]
  }

  // ---------------------------------------------------------------------------
  // The whole text
  // ---------------------------------------------------------------------------

  /** The non-empty lines, in their order: Python's `filter(None, lines)`. */
  function NonEmptyLines(lines: seq<string>): (r: seq<string>)
    ensures |r| <= |lines|
    ensures forall i :: 0 <= i < |r| ==> r[i] != ""
    ensures forall l :: l in r <==> l in lines && l != ""
  {
    if |lines| == 0 then []
    else
      assert lines == [lines[0]] + lines[1..];
      (if lines[0] == "" then [] else [lines[0]]) + NonEmptyLines(lines[1..])
  }

  /** Every non-empty line is kept as often as it occurs, and the empty ones are all dropped. */
  lemma {:induction false} NonEmptyLinesCounts(lines: seq<string>)
    ensures multiset(NonEmptyLines(lines)) == multiset(lines)["" := 0]
  {
    if |lines| > 0 {
      NonEmptyLinesCounts(lines[1..]);
      assert lines == [lines[0]] + lines[1..];
    }
  }

  /** Filtering keeps the order: the non-empty lines of two lists are those of the first, then those of the second. */
  lemma {:induction false} NonEmptyLinesAppend(a: seq<string>, b: seq<string>)
    ensures NonEmptyLines(a + b) == NonEmptyLines(a) + NonEmptyLines(b)
  {
    if |a| > 0 {
      assert (a + b)[0] == a[0];
      assert (a + b)[1..] == a[1..] + b;
      NonEmptyLinesAppend(a[1..], b);
    } else {
      assert a + b == b;
    }
  }

  /** The library of each line, in the order of the lines. */
  function Libraries(lines: seq<string>): seq<string>
  {
    if |lines| == 0 then [] else LibrariesOfLine(lines[0]) + Libraries(lines[1..])
  }

  lemma {:induction false} LibrariesAppend(a: seq<string>, b: seq<string>)
    ensures Libraries(a + b) == Libraries(a) + Libraries(b)
  {
    if |a| > 0 {
      assert (a + b)[0] == a[0];
      assert (a + b)[1..] == a[1..] + b;
      LibrariesAppend(a[1..], b);
    } else {
      assert a + b == b;
    }
  }

  /**
   * `_extract_libraries_from_requirements`: the library of each non-empty
   * line of the text. No library name holds a newline.
   */
  function ExtractLibrariesFromRequirements(text: string): (r: seq<string>)
    ensures forall i :: 0 <= i < |r| ==> '\n' !in r[i]
  {
    var lines := SplitLines(text);
    LibrariesOfLines(lines);
    Libraries(lines)
  }

  /**
   * One library per non-empty line of the text, in the order of the lines:
   * the i-th library is that of the i-th non-empty line.
   */
  lemma ExtractLibrariesPerLine(text: string)
    ensures |ExtractLibrariesFromRequirements(text)| == |NonEmptyLines(SplitLines(text))|
    ensures forall i :: 0 <= i < |ExtractLibrariesFromRequirements(text)| ==>
      ExtractLibrariesFromRequirements(text)[i] == LibraryOfLine(NonEmptyLines(SplitLines(text))[i])
  {
    LibrariesOfLines(SplitLines(text));
  }

  /** No extracted library name holds a version operator. */
  lemma ExtractedNamesHaveNoOperator(text: string)
    ensures forall i, j :: 0 <= i < |ExtractLibrariesFromRequirements(text)| && 0 <= j < |ExtractLibrariesFromRequirements(text)[i]| ==>
      !IsVersionOperator(ExtractLibrariesFromRequirements(text)[i][j])
  {
    var r := ExtractLibrariesFromRequirements(text);
    var ne := NonEmptyLines(SplitLines(text));
    ExtractLibrariesPerLine(text);
    forall i | 0 <= i < |r|
      ensures forall j :: 0 <= j < |r[i]| ==> !IsVersionOperator(r[i][j])
    {
      assert r[i] == LibraryOfLine(ne[i]);
    }
  }

  /** The library of each line is that of the corresponding non-empty line, and holds no newline. */
  lemma {:induction false} LibrariesOfLines(lines: seq<string>)
    requires forall i :: 0 <= i < |lines| ==> '\n' !in lines[i]
    ensures |Libraries(lines)| == |NonEmptyLines(lines)|
    ensures forall i :: 0 <= i < |Libraries(lines)| ==>
      Libraries(lines)[i] == LibraryOfLine(NonEmptyLines(lines)[i]) && '\n' !in Libraries(lines)[i]
  {
    if |lines| > 0 {
      LibrariesOfLines(lines[1..]);
      var tail := Libraries(lines[1..]);
      var ne := NonEmptyLines(lines[1..]);
      if lines[0] != "" {
        LibraryHasNoNewline(lines[0]);
        assert Libraries(lines) == [LibraryOfLine(lines[0])] + tail;
        assert NonEmptyLines(lines) == [lines[0]] + ne;
      } else {
        assert Libraries(lines) == tail;
        assert NonEmptyLines(lines) == ne;
      }
    }
  }

  /** A line's library holds no newline when the line holds none. */
  lemma LibraryHasNoNewline(line: string)
    requires '\n' !in line
    ensures '\n' !in LibraryOfLine(line)
  {
  }

  /**
   * The output for two texts separated by a newline is the output for the
   * first followed by the output for the second: lines keep their order.
   */
  lemma ExtractLibrariesAppend(a: string, b: string)
    ensures ExtractLibrariesFromRequirements(a + "\n" + b)
         == ExtractLibrariesFromRequirements(a) + ExtractLibrariesFromRequirements(b)
  {
    SplitLinesAppend(a, b);
    LibrariesAppend(SplitLines(a), SplitLines(b));
  }

  /** A single line gives its library, or nothing when it is empty. */
  lemma ExtractLibrariesOfLine(line: string)
    requires '\n' !in line
    ensures ExtractLibrariesFromRequirements(line) == LibrariesOfLine(line)
  {
    SplitLinesOfLine(line);
    assert Libraries([line]) == LibrariesOfLine(line) + Libraries([]);
  }

  /** A trailing newline adds nothing. */
  lemma ExtractLibrariesTrailingNewline(a: string)
    ensures ExtractLibrariesFromRequirements(a + "\n") == ExtractLibrariesFromRequirements(a)
  {
    ExtractLibrariesAppend(a, "");
    ExtractLibrariesOfLine("");
    assert a + "\n" + "" == a + "\n";
  }

  /** An empty line between two texts, from consecutive newlines, adds nothing. */
  lemma ExtractLibrariesSkipsEmptyLine(a: string, b: string)
    ensures ExtractLibrariesFromRequirements(a + "\n\n" + b)
         == ExtractLibrariesFromRequirements(a) + ExtractLibrariesFromRequirements(b)
  {
    assert a + "\n\n" + b == (a + "\n") + "\n" + b;
    ExtractLibrariesAppend(a + "\n", b);
    ExtractLibrariesTrailingNewline(a);
  }

  /** The requirements text of the unit test gives the three library names. */
  lemma ExtractLibrariesExample(text: string)
    requires text == "PyQt5>=5.14\npsutil\n\nconfigobj\n"
    ensures ExtractLibrariesFromRequirements(text) == ["PyQt5", "psutil", "configobj"]
  {
    var l1, l2, l3 := "PyQt5>=5.14", "psutil", "configobj";
    var tail := l2 + "\n\n" + (l3 + "\n");
    assert text == l1 + "\n" + tail;
    ExtractLibrariesAppend(l1, tail);
    ExampleTail();
    ExampleFirstLine();
  }

  lemma ExampleTail()
    ensures ExtractLibrariesFromRequirements("psutil" + "\n\n" + ("configobj" + "\n")) == ["psutil", "configobj"]
  {
    PlainLinesWithBlankLine("psutil", "configobj");
  }

  /** Two plain names, separated by a blank line and followed by a newline, give those two names. */
  lemma PlainLinesWithBlankLine(a: string, b: string)
    requires a != "" && b != "" && '\n' !in a && '\n' !in b
    requires forall i :: 0 <= i < |a| ==> !IsVersionOperator(a[i])
    requires forall i :: 0 <= i < |b| ==> !IsVersionOperator(b[i])
    requires a !in PackageToImportMapping && b !in PackageToImportMapping
    ensures ExtractLibrariesFromRequirements(a + "\n\n" + (b + "\n")) == [a, b]
  {
    ExtractLibrariesSkipsEmptyLine(a, b + "\n");
    ExtractLibrariesTrailingNewline(b);
    ExtractLibrariesOfLine(a);
    PackageNameOfPlainName(a);
    ExtractLibrariesOfLine(b);
    PackageNameOfPlainName(b);
  }

  lemma ExampleFirstLine()
    ensures ExtractLibrariesFromRequirements("PyQt5>=5.14") == ["PyQt5"]
  {
    ExtractLibrariesOfLine("PyQt5>=5.14");
    PackageNameExample();
  }

  lemma PackageNameExample()
    ensures PackageName("PyQt5>=5.14") == "PyQt5"
  {
    PackageNameUpToOperator("PyQt5", ">=5.14");
    assert "PyQt5" + ">=5.14" == "PyQt5>=5.14";
  }

  /** A line is cut just before its first operator. */
  lemma {:induction false} PackageNameUpToOperator(name: string, rest: string)
    requires forall i :: 0 <= i < |name| ==> !IsVersionOperator(name[i])
    requires |rest| > 0 && IsVersionOperator(rest[0])
    ensures PackageName(name + rest) == name
  {
    if |name| == 0 {
      assert name + rest == rest;
    } else {
      assert (name + rest)[0] == name[0];
      assert (name + rest)[1..] == name[1..] + rest;
      PackageNameUpToOperator(name[1..], rest);
    }
  }

  /** A line without version operators names itself. */
  lemma PackageNameOfPlainName(line: string)
    requires forall i :: 0 <= i < |line| ==> !IsVersionOperator(line[i])
    ensures PackageName(line) == line
  {
  }
}
