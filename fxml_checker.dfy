/**
 * The FXML checker: for each JAR it reads every `.fxml` entry, collects the classes named by
 * its `<?import ...?>` processing instructions, and at the end prints the combined set, one
 * line per class, in the format chosen by the last `-p`, `-s` or `-n` option.
 */
module FxmlChecking {
  import opened Wrappers
  import opened JavaStrings
  import opened JarEnvironment

  /** Plain class names, Maven Shade `<include>` elements, or GluonHQ native `<list>` elements. */
  datatype TargetFormat = Plain | MavenShade | MavenGluonNative

  const ImportStart := "<?import"
  const ImportEnd := "?>"

  /** The option an argument starting with '-' selects; any other such argument keeps the format. */
  function OptionFormat(current: TargetFormat, arg: string): (f: TargetFormat)
    ensures arg == "-p" ==> f == Plain
    ensures arg == "-s" ==> f == MavenShade
    ensures arg == "-n" ==> f == MavenGluonNative
    ensures arg != "-p" && arg != "-s" && arg != "-n" ==> f == current
  {
    if arg == "-n" then MavenGluonNative
    else if arg == "-s" then MavenShade
    else if arg == "-p" then Plain
    else current
  }

  /** The line `finish` prints for a class; Maven Shade wants the class as a path. */
  function FormatClass(format: TargetFormat, c: string): string {
    match format
    case Plain => c + "\n"
    case MavenShade => "<include>" + DotsToSlashes(c) + "</include>\n"
    case MavenGluonNative => "<list>" + c + "</list>\n"
  }

  /** Plain and native output print distinct classes as distinct lines. */
  lemma FormatInjective(format: TargetFormat, c1: string, c2: string)
    requires format != MavenShade
    requires FormatClass(format, c1) == FormatClass(format, c2)
    ensures c1 == c2
  {
    var l1 := FormatClass(format, c1);
    var l2 := FormatClass(format, c2);
    if format == Plain {
      assert c1 == l1[..|c1|] && c2 == l2[..|c2|];
    } else {
      assert c1 == l1[6..6 + |c1|] && c2 == l2[6..6 + |c2|];
    }
  }

  /** Maven Shade output can merge two classes into one line. */
  lemma ShadeMergesDotsAndSlashes()
    ensures FormatClass(MavenShade, "a.B") == FormatClass(MavenShade, "a/B")
  {
    assert DotsToSlashes("a.B") == "a/B";
    assert DotsToSlashes("a/B") == "a/B";
  }

  // ---------------------------------------------------------------- import extraction

  /**
   * The class an FXML line imports: the trimmed line must start with "<?import"; every
   * "<?import" and "?>" in it is removed and the rest trimmed.
   */
  function ImportOf(line: string): Option<string> {
    var tr := Trim(line);
    if StartsWith(tr, ImportStart) then Some(Trim(RemoveAll(RemoveAll(tr, ImportStart), ImportEnd)))
    else None
  }

  /** A fully qualified class name as it appears in an import: visible characters, no '<' or '?'. */
  predicate IsClassName(c: string) {
    c != [] && forall k :: 0 <= k < |c| ==> c[k] > ' ' && c[k] != '<' && c[k] != '?'
  }

  /** A string without the first character of the pattern contains no occurrence of it. */
  lemma {:induction false} RemoveAllWithoutFirstChar(s: string, pat: string)
    requires pat != []
    requires forall k :: 0 <= k < |s| ==> s[k] != pat[0]
    ensures RemoveAll(s, pat) == s
    decreases |s|
  {
    if |s| >= |pat| {
      assert !StartsWith(s, pat) by {
        assert s[0] != pat[0];
      }
      RemoveAllWithoutFirstChar(s[1..], pat);
      assert s == [s[0]] + s[1..];
    }
  }

  /** A trailing occurrence is removed when nothing before it starts one. */
  lemma {:induction false} RemoveAllTrailing(s: string, pat: string)
    requires pat != []
    requires forall k :: 0 <= k < |s| ==> s[k] != pat[0]
    ensures RemoveAll(s + pat, pat) == s
    decreases |s|
  {
    if s == [] {
      assert s + pat == pat;
      assert pat[|pat|..] == [];
    } else {
      var t := s + pat;
      assert t[0] == s[0] && !StartsWith(t, pat);
      assert t[1..] == s[1..] + pat;
      RemoveAllTrailing(s[1..], pat);
      assert s == [s[0]] + s[1..];
    }
  }

  lemma TrimLeadingSpace(c: string)
    requires IsClassName(c)
    ensures Trim(" " + c) == c
  {
    var s := " " + c;
    assert c[0] > ' ' && c[|c| - 1] > ' ';
    assert s[0] == ' ' && s[1..] == c;
    assert TrimLeading(s) == TrimLeading(c);
    TrimNoop(c);
    assert TrimLeading(c) == c;
  }

  /** `<?import C?>` imports exactly C. */
  lemma ImportOfDeclaration(c: string)
    requires IsClassName(c)
    ensures ImportOf(ImportStart + " " + c + ImportEnd) == Some(c)
  {
    var line := ImportStart + " " + c + ImportEnd;
    assert line[0] == '<' && line[|line| - 1] == '>';
    TrimNoop(line);
    var body := " " + c + ImportEnd;
    assert line == ImportStart + body;
    RemoveAllPrefix(ImportStart, body);
    RemoveAllWithoutFirstChar(body, ImportStart);
    assert RemoveAll(Trim(line), ImportStart) == (" " + c) + ImportEnd;
    RemoveAllTrailing(" " + c, ImportEnd);
    TrimLeadingSpace(c);
  }

  /** Lines that are not import instructions contribute nothing, even with surrounding blanks. */
  lemma NonImportIgnored(line: string)
    requires !StartsWith(Trim(line), ImportStart)
    ensures ImportOf(line) == None
  {
  }

  /** A class found on a line, as a set: empty when the line imports nothing. */
  function Found(o: Option<string>): set<string> {
    match o
    case Some(c) => {c}
    case None => {}
  }

  /** What `parse` makes of each line, in order. */
  function Parsed(parse: string -> Option<string>, lines: seq<string>): (found: seq<Option<string>>)
    ensures |found| == |lines|
    ensures forall i :: 0 <= i < |lines| ==> found[i] == parse(lines[i])
  {
    seq(|lines|, i requires 0 <= i < |lines| => parse(lines[i]))
  }

  lemma ParsedSnoc(parse: string -> Option<string>, lines: seq<string>, i: nat)
    requires i < |lines|
    ensures Parsed(parse, lines[..i + 1]) == Parsed(parse, lines[..i]) + [parse(lines[i])]
  {
    assert Parsed(parse, lines[..i + 1])[..i] == Parsed(parse, lines[..i]);
  }

  /** The classes found on a sequence of lines, collected line by line. */
  function Collected(found: seq<Option<string>>): set<string>
    decreases |found|
  {
    if found == [] then {} else Collected(found[..|found| - 1]) + Found(found[|found| - 1])
  }

  /** The classes collected are exactly those found on some line. */
  lemma {:induction false} CollectedExactly(found: seq<Option<string>>)
    ensures forall i :: 0 <= i < |found| && found[i].Some? ==> found[i].value in Collected(found)
    ensures forall c :: c in Collected(found) ==> exists i :: 0 <= i < |found| && found[i] == Some(c)
    decreases |found|
  {
    if found != [] {
      var init := found[..|found| - 1];
      CollectedExactly(init);
      forall i | 0 <= i < |found| && found[i].Some?
        ensures found[i].value in Collected(found)
      {
        if i < |init| {
          assert init[i] == found[i];
        }
      }
      forall c | c in Collected(found)
        ensures exists i :: 0 <= i < |found| && found[i] == Some(c)
      {
        if c in Collected(init) {
          var j :| 0 <= j < |init| && init[j] == Some(c);
          assert found[j] == Some(c);
        } else {
          assert found[|found| - 1] == Some(c);
        }
      }
    }
  }

  /** The classes the lines of one FXML file import. */
  function ImportsOf(lines: seq<string>): set<string> {
    Collected(Parsed(ImportOf, lines))
  }

  /** The classes of a file are exactly the imports of its lines. */
  lemma ImportsOfExactly(lines: seq<string>)
    ensures forall i :: 0 <= i < |lines| && ImportOf(lines[i]).Some? ==> ImportOf(lines[i]).value in ImportsOf(lines)
    ensures forall c :: c in ImportsOf(lines) ==> exists i :: 0 <= i < |lines| && ImportOf(lines[i]) == Some(c)
  {
    CollectedExactly(Parsed(ImportOf, lines));
  }

  /** One more line adds the class it imports, if any. */
  lemma ImportsOfSnoc(lines: seq<string>, i: nat)
    requires i < |lines|
    ensures ImportsOf(lines[..i + 1]) == ImportsOf(lines[..i]) + Found(ImportOf(lines[i]))
  {
    var found := Parsed(ImportOf, lines[..i]);
    ParsedSnoc(ImportOf, lines, i);
    assert (found + [ImportOf(lines[i])])[..i] == found;
  }

  // ---------------------------------------------------------------- one JAR

  /** The classes after one FXML entry, and the error it raised if any. */
  datatype Step = Step(classes: set<string>, error: Option<Error>)

  /** `processFXML` on the collected classes: a readable regular entry adds its imports. */
  function FxmlStep(classes: set<string>, archive: Archive, line: string): (s: Step)
    ensures classes <= s.classes
    ensures s.error.None? <==> archive.opens && archive.entries(line).Regular?
    ensures s.error.None? ==> s.classes == classes + ImportsOf(archive.entries(line).lines)
    ensures s.error.Some? ==> s.classes == classes
  {
    if !archive.opens then Step(classes, Some(ProcessorError("Error processing line: " + line)))
    else match archive.entries(line)
      case Regular(lines) => Step(classes + ImportsOf(lines), None)
      case NotRegular => Step(classes, Some(ProcessorError("No regular file: " + line)))
      case ReadError => Step(classes, Some(ProcessorError("Error processing line: " + line)))
  }

  /** The classes gathered from the FXML entries of a listing, and how many entries failed. */
  datatype Gathered = Gathered(classes: set<string>, failures: nat)

  predicate IsFxmlEntry(line: string) {
    EndsWith(line, ".fxml")
  }

  /** The `.fxml` lines of a listing processed in order. */
  function FxmlFold(classes: set<string>, archive: Archive, lines: seq<string>): (g: Gathered)
    decreases |lines|
  {
    if lines == [] then Gathered(classes, 0)
    else
      var prev := FxmlFold(classes, archive, lines[..|lines| - 1]);
      var line := lines[|lines| - 1];
      if !IsFxmlEntry(line) then prev
      else
        var step := FxmlStep(prev.classes, archive, line);
        Gathered(step.classes, prev.failures + (if step.error.Some? then 1 else 0))
  }

  /** Classes are only ever added, and at most one failure is counted per FXML entry. */
  lemma {:induction false} FxmlFoldGrows(classes: set<string>, archive: Archive, lines: seq<string>)
    ensures classes <= FxmlFold(classes, archive, lines).classes
    ensures FxmlFold(classes, archive, lines).failures <= |lines|
    decreases |lines|
  {
    if lines != [] {
      FxmlFoldGrows(classes, archive, lines[..|lines| - 1]);
    }
  }

  /** When every FXML entry reads cleanly, nothing fails and every import of every entry is collected. */
  lemma {:induction false} FxmlFoldCollects(classes: set<string>, archive: Archive, lines: seq<string>)
    requires archive.opens
    requires forall i :: 0 <= i < |lines| && IsFxmlEntry(lines[i]) ==> archive.entries(lines[i]).Regular?
    ensures FxmlFold(classes, archive, lines).failures == 0
    ensures forall i :: 0 <= i < |lines| && IsFxmlEntry(lines[i]) ==>
              ImportsOf(archive.entries(lines[i]).lines) <= FxmlFold(classes, archive, lines).classes
    decreases |lines|
  {
    if lines != [] {
      var init := lines[..|lines| - 1];
      FxmlFoldCollects(classes, archive, init);
      var prev := FxmlFold(classes, archive, init);
      var line := lines[|lines| - 1];
      var now := FxmlFold(classes, archive, lines);
      assert prev.classes <= now.classes;
      forall i | 0 <= i < |lines| && IsFxmlEntry(lines[i])
        ensures ImportsOf(archive.entries(lines[i]).lines) <= now.classes
      {
        if i < |lines| - 1 {
          assert lines[i] == init[i];
        }
      }
    }
  }

  // ---------------------------------------------------------------- the processor

  class FxmlChecker {
    var fxmlClasses: set<string>
    var targetFormat: TargetFormat
    var errors: nat
    var verbose: bool
    var jar: Option<JarTool>

    constructor ()
      ensures fxmlClasses == {} && targetFormat == Plain && errors == 0 && !verbose && jar == None
    {
      fxmlClasses := {};
      targetFormat := Plain;
      errors := 0;
      verbose := false;
      jar := None;
    }

    method Initialize(tool: JarTool, verbose: bool)
      modifies this`jar, this`verbose
      ensures jar == Some(tool) && this.verbose == verbose
    {
      jar := Some(tool);
      this.verbose := verbose;
    }

    /** `start` forgets the classes and errors but keeps the output format. */
    method Start()
      modifies this`fxmlClasses, this`errors
      ensures fxmlClasses == {} && errors == 0
      ensures targetFormat == old(targetFormat)
    {
      fxmlClasses := {};
      errors := 0;
    }

    /** One `.fxml` entry: its imports are added one line at a time. */
    method ProcessFxml(archive: Archive, line: string) returns (r: Result<(), Error>)
      modifies this`fxmlClasses
      ensures var step := FxmlStep(old(fxmlClasses), archive, line);
              && fxmlClasses == step.classes
              && (r.Err? <==> step.error.Some?)
              && (r.Err? ==> r.error == step.error.value)
    {
      if !archive.opens {
        return Err(ProcessorError("Error processing line: " + line));
      }
      match archive.entries(line)
      case NotRegular =>
        return Err(ProcessorError("No regular file: " + line));
      case ReadError =>
        return Err(ProcessorError("Error processing line: " + line));
      case Regular(lines) =>
        ghost var c0 := fxmlClasses;
        assert ImportsOf(lines[..0]) == {};
        var i := 0;
        while i < |lines|
          invariant 0 <= i <= |lines|
          invariant fxmlClasses == c0 + ImportsOf(lines[..i])
        {
          ImportsOfSnoc(lines, i);
          var trImpl := Trim(lines[i]);
          if StartsWith(trImpl, ImportStart) {
            var fxmlClass := Trim(RemoveAll(RemoveAll(trImpl, ImportStart), ImportEnd));
            fxmlClasses := fxmlClasses + {fxmlClass};
          }
          i := i + 1;
        }
        assert lines[..|lines|] == lines;
        return Ok(());
    }

    /** The loop of `process` over the listing: every FXML entry's imports are gathered, a failure counts as an error. */
    method ReadFxmlEntries(archive: Archive, lines: seq<string>)
      modifies this`fxmlClasses, this`errors
      ensures fxmlClasses == FxmlFold(old(fxmlClasses), archive, lines).classes
      ensures errors == old(errors) + FxmlFold(old(fxmlClasses), archive, lines).failures
    {
      ghost var c0 := fxmlClasses;
      var i := 0;
      while i < |lines|
        invariant 0 <= i <= |lines|
        invariant fxmlClasses == FxmlFold(c0, archive, lines[..i]).classes
        invariant errors == old(errors) + FxmlFold(c0, archive, lines[..i]).failures
      {
        assert lines[..i + 1][..i] == lines[..i];
        if IsFxmlEntry(lines[i]) {
          var ok := ProcessFxml(archive, lines[i]);
          if ok.Err? {
            errors := errors + 1;
          }
        }
        i := i + 1;
      }
      assert lines[..|lines|] == lines;
    }

    /** `process`: an option changes the format; anything else is a JAR whose FXML entries are read. */
    method Process(disk: Disk, arg: string) returns (r: Result<(), Error>)
      requires jar.Some?
      modifies this`fxmlClasses, this`errors, this`targetFormat
      ensures StartsWith(arg, "-") ==>
                && r == Ok(())
                && targetFormat == OptionFormat(old(targetFormat), arg)
                && fxmlClasses == old(fxmlClasses) && errors == old(errors)
      ensures !StartsWith(arg, "-") ==> targetFormat == old(targetFormat)
      ensures !StartsWith(arg, "-") && JarFile(disk, arg).Err? ==>
                r == Err(JarFile(disk, arg).error) && fxmlClasses == old(fxmlClasses) && errors == old(errors)
      ensures !StartsWith(arg, "-") && JarFile(disk, arg).Ok? ==>
                var run := jar.value.list(JarFile(disk, arg).value);
                && (run.status != 0 ==>
                      && r == Err(ProcessorError("jar tool terminated with errors."))
                      && fxmlClasses == old(fxmlClasses) && errors == old(errors))
                && (run.status == 0 ==>
                      var g := FxmlFold(old(fxmlClasses), disk.archive(JarFile(disk, arg).value), Lines(run.output));
                      && fxmlClasses == g.classes
                      && errors == old(errors) + g.failures
                      && (r.Err? <==> errors > 0)
                      && (r.Err? ==> r.error == ProcessorError("process terminated with errors.")))
    {
      if StartsWith(arg, "-") {
        if arg == "-p" {
          targetFormat := Plain;
        }
        if arg == "-s" {
          targetFormat := MavenShade;
        }
        if arg == "-n" {
          targetFormat := MavenGluonNative;
        }
        return Ok(());
      }
      var f := JarFile(disk, arg);
      if f.Err? {
        return Err(f.error);
      }
      var run := jar.value.list(f.value);
      if run.status != 0 {
        return Err(ProcessorError("jar tool terminated with errors."));
      }
      ReadFxmlEntries(disk.archive(f.value), Lines(run.output));
      if errors > 0 {
        return Err(ProcessorError("process terminated with errors."));
      }
      return Ok(());
    }

    /** `finish`: one formatted line per collected class, in no particular order. */
    method Finish() returns (output: set<string>)
      ensures output == set c | c in fxmlClasses :: FormatClass(targetFormat, c)
      ensures targetFormat != MavenShade ==> |output| == |fxmlClasses|
    {
      output := {};
      var todo := fxmlClasses;
      while todo != {}
        invariant todo <= fxmlClasses
        invariant output == set c | c in fxmlClasses - todo :: FormatClass(targetFormat, c)
        decreases |todo|
      {
        var c :| c in todo;
        output := output + {FormatClass(targetFormat, c)};
        todo := todo - {c};
      }
      assert fxmlClasses - todo == fxmlClasses;
      if targetFormat != MavenShade {
        ImageSize(fxmlClasses, targetFormat);
      }
    }
  }

  /** Printing a set of classes in plain or native format gives as many lines as classes. */
  lemma {:induction false} ImageSize(cs: set<string>, format: TargetFormat)
    requires format != MavenShade
    ensures |set c | c in cs :: FormatClass(format, c)| == |cs|
    decreases |cs|
  {
    if cs != {} {
      var c :| c in cs;
      var rest := cs - {c};
      ImageSize(rest, format);
      var image := set x | x in cs :: FormatClass(format, x);
      var restImage := set x | x in rest :: FormatClass(format, x);
      assert image == restImage + {FormatClass(format, c)};
      assert FormatClass(format, c) !in restImage by {
        if FormatClass(format, c) in restImage {
          var x :| x in rest && FormatClass(format, x) == FormatClass(format, c);
          FormatInjective(format, x, c);
        }
      }
    }
  }
}
