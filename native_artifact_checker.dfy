/**
 * The native artifact checker: for each JAR it prints, indented, every entry whose name ends
 * in a native-library suffix and that is a regular file, and counts every such entry it
 * looks at; `finish` reports the count in verbose mode.
 */
module NativeArtifactChecking {
  import opened Wrappers
  import opened JavaStrings
  import opened JarEnvironment

  const Indent := "   "

  /** Object files, static and shared libraries on Linux, Windows and macOS, and JNI libraries. */
  predicate IsNativeArtifact(line: string) {
    || EndsWith(line, ".o")
    || EndsWith(line, ".a")
    || EndsWith(line, ".so")
    || EndsWith(line, ".dll")
    || EndsWith(line, ".dylib")
    || EndsWith(line, ".jnilib")
  }

  /** One artifact entry: printed when it is a regular file, otherwise the error it raises. */
  function ArtifactStep(archive: Archive, line: string): (r: Result<string, Error>)
    ensures r.Ok? <==> archive.opens && !archive.entries(line).NotRegular?
    ensures r.Ok? ==> r.value == Indent + line
  {
    if !archive.opens then Err(ProcessorError("Error processing line: " + line))
    else if archive.entries(line).NotRegular? then Err(ProcessorError("No regular file: " + line))
    else Ok(Indent + line)
  }

  /** What scanning a listing produced: the printed lines, the artifacts counted, the failures. */
  datatype Listed = Listed(printed: seq<string>, counted: nat, failures: nat)

  /** The artifact lines of a listing processed in order. */
  function ArtifactFold(archive: Archive, lines: seq<string>): (l: Listed)
    decreases |lines|
  {
    if lines == [] then Listed([], 0, 0)
    else
      var prev := ArtifactFold(archive, lines[..|lines| - 1]);
      var line := lines[|lines| - 1];
      if !IsNativeArtifact(line) then prev
      else match ArtifactStep(archive, line)
        case Ok(out) => Listed(prev.printed + [out], prev.counted + 1, prev.failures)
        case Err(_) => Listed(prev.printed, prev.counted + 1, prev.failures + 1)
  }

  /** The artifact lines of a listing, in order. */
  function Artifacts(lines: seq<string>): (as_: seq<string>)
    ensures forall i :: 0 <= i < |as_| ==> IsNativeArtifact(as_[i])
    decreases |lines|
  {
    if lines == [] then []
    else
      Artifacts(lines[..|lines| - 1])
      + (if IsNativeArtifact(lines[|lines| - 1]) then [lines[|lines| - 1]] else [])
  }

  /**
   * Every artifact entry is counted, and is either printed or counted as a failure; the
   * printed lines are the artifacts that are regular files, in listing order.
   */
  lemma {:induction false} ArtifactFoldAccounts(archive: Archive, lines: seq<string>)
    ensures ArtifactFold(archive, lines).counted == |Artifacts(lines)|
    ensures |ArtifactFold(archive, lines).printed| + ArtifactFold(archive, lines).failures
            == ArtifactFold(archive, lines).counted
    ensures archive.opens ==>
              ArtifactFold(archive, lines).printed == Indented(RegularOnes(archive, Artifacts(lines)))
    decreases |lines|
  {
    if lines != [] {
      var init := lines[..|lines| - 1];
      ArtifactFoldAccounts(archive, init);
      var line := lines[|lines| - 1];
      if IsNativeArtifact(line) {
        assert Artifacts(lines) == Artifacts(init) + [line];
        RegularOnesSnoc(archive, Artifacts(init), line);
        var regs := RegularOnes(archive, Artifacts(init));
        IndentedAppend(regs, [line]);
        if archive.opens && !archive.entries(line).NotRegular? {
          assert ArtifactFold(archive, lines).printed == ArtifactFold(archive, init).printed + [Indent + line];
          assert RegularOnes(archive, Artifacts(lines)) == regs + [line];
        }
      } else {
        assert Artifacts(lines) == Artifacts(init);
      }
    }
  }

  /** Each path on a line of its own, indented. */
  function Indented(ps: seq<string>): (r: seq<string>)
    ensures |r| == |ps|
    ensures forall i :: 0 <= i < |ps| ==> r[i] == Indent + ps[i]
  {
    seq(|ps|, i requires 0 <= i < |ps| => Indent + ps[i])
  }

  /** Indenting a concatenation indents each part. */
  lemma IndentedAppend(a: seq<string>, b: seq<string>)
    ensures Indented(a + b) == Indented(a) + Indented(b)
  {
    forall i | 0 <= i < |a + b|
      ensures Indented(a + b)[i] == (Indented(a) + Indented(b))[i]
    {
      if i < |a| {
        assert (a + b)[i] == a[i];
      } else {
        assert (a + b)[i] == b[i - |a|];
      }
    }
  }

  /** The indent can be stripped again: different path lists print different lines. */
  lemma IndentedInjective(a: seq<string>, b: seq<string>)
    requires Indented(a) == Indented(b)
    ensures a == b
  {
    forall i | 0 <= i < |a|
      ensures a[i] == b[i]
    {
      assert (Indent + a[i])[|Indent|..] == a[i];
      assert (Indent + b[i])[|Indent|..] == b[i];
    }
  }

  /** The entries among `ps` that are regular files of the archive, in order. */
  function RegularOnes(archive: Archive, ps: seq<string>): seq<string>
    decreases |ps|
  {
    if ps == [] then []
    else
      RegularOnes(archive, ps[..|ps| - 1])
      + (if archive.entries(ps[|ps| - 1]).NotRegular? then [] else [ps[|ps| - 1]])
  }

  lemma RegularOnesSnoc(archive: Archive, ps: seq<string>, p: string)
    ensures RegularOnes(archive, ps + [p])
            == RegularOnes(archive, ps) + (if archive.entries(p).NotRegular? then [] else [p])
  {
    assert (ps + [p])[..|ps|] == ps;
  }

  /** An archive that cannot be opened prints nothing and fails on every artifact. */
  lemma {:induction false} UnopenableArchiveFailsAll(archive: Archive, lines: seq<string>)
    requires !archive.opens
    ensures ArtifactFold(archive, lines).printed == []
    ensures ArtifactFold(archive, lines).failures == ArtifactFold(archive, lines).counted
    decreases |lines|
  {
    if lines != [] {
      UnopenableArchiveFailsAll(archive, lines[..|lines| - 1]);
    }
  }

  class NativeArtifactChecker {
    /** Cleared by `start` but otherwise unused. */
    var fxmlClasses: set<string>
    var errors: nat
    var counter: nat
    var verbose: bool
    var jar: Option<JarTool>
    /** What the checker has printed so far. */
    var printed: seq<string>

    constructor ()
      ensures fxmlClasses == {} && errors == 0 && counter == 0 && !verbose && jar == None && printed == []
    {
      fxmlClasses := {};
      errors := 0;
      counter := 0;
      verbose := false;
      jar := None;
      printed := [];
    }

    method Initialize(tool: JarTool, verbose: bool)
      modifies this`jar, this`verbose
      ensures jar == Some(tool) && this.verbose == verbose
    {
      jar := Some(tool);
      this.verbose := verbose;
    }

    /** `start` resets the errors, not the artifact counter. */
    method Start()
      modifies this`fxmlClasses, this`errors
      ensures fxmlClasses == {} && errors == 0
      ensures counter == old(counter) && printed == old(printed)
    {
      fxmlClasses := {};
      errors := 0;
    }

    /** One artifact entry: counted first, then printed if it is a regular file. */
    method ProcessArtifact(archive: Archive, line: string) returns (r: Result<(), Error>)
      modifies this`counter, this`printed
      ensures counter == old(counter) + 1
      ensures var step := ArtifactStep(archive, line);
              && (step.Ok? ==> r == Ok(()) && printed == old(printed) + [step.value])
              && (step.Err? ==> r == Err(step.error) && printed == old(printed))
    {
      counter := counter + 1;
      if !archive.opens {
        return Err(ProcessorError("Error processing line: " + line));
      }
      if archive.entries(line).NotRegular? {
        return Err(ProcessorError("No regular file: " + line));
      }
      printed := printed + [Indent + line];
      return Ok(());
    }

    /** The loop of `process` over the listing: every artifact entry is handled, a failure counts as an error. */
    method ReadArtifacts(archive: Archive, lines: seq<string>)
      modifies this`counter, this`printed, this`errors
      ensures printed == old(printed) + ArtifactFold(archive, lines).printed
      ensures counter == old(counter) + ArtifactFold(archive, lines).counted
      ensures errors == old(errors) + ArtifactFold(archive, lines).failures
    {
      var i := 0;
      while i < |lines|
        invariant 0 <= i <= |lines|
        invariant printed == old(printed) + ArtifactFold(archive, lines[..i]).printed
        invariant counter == old(counter) + ArtifactFold(archive, lines[..i]).counted
        invariant errors == old(errors) + ArtifactFold(archive, lines[..i]).failures
      {
        assert lines[..i + 1][..i] == lines[..i];
        if IsNativeArtifact(lines[i]) {
          var ok := ProcessArtifact(archive, lines[i]);
          if ok.Err? {
            errors := errors + 1;
          }
        }
        i := i + 1;
      }
      assert lines[..|lines|] == lines;
    }

    /** `process`: lists the JAR and handles every artifact entry of the listing. */
    method Process(disk: Disk, arg: string) returns (r: Result<(), Error>)
      requires jar.Some?
      modifies this`counter, this`printed, this`errors
      ensures JarFile(disk, arg).Err? ==>
                && r == Err(JarFile(disk, arg).error)
                && counter == old(counter) && printed == old(printed) && errors == old(errors)
      ensures JarFile(disk, arg).Ok? ==>
                var run := jar.value.list(JarFile(disk, arg).value);
                && (run.status != 0 ==>
                      && r == Err(ProcessorError("jar tool terminated with errors."))
                      && counter == old(counter) && printed == old(printed) && errors == old(errors))
                && (run.status == 0 ==>
                      var l := ArtifactFold(disk.archive(JarFile(disk, arg).value), Lines(run.output));
                      && printed == old(printed) + l.printed
                      && counter == old(counter) + l.counted
                      && errors == old(errors) + l.failures
                      && (r.Err? <==> errors > 0)
                      && (r.Err? ==> r.error == ProcessorError("process terminated with errors.")))
    {
      var f := JarFile(disk, arg);
      if f.Err? {
        return Err(f.error);
      }
      var run := jar.value.list(f.value);
      if run.status != 0 {
        return Err(ProcessorError("jar tool terminated with errors."));
      }
      ReadArtifacts(disk.archive(f.value), Lines(run.output));
      if errors > 0 {
        return Err(ProcessorError("process terminated with errors."));
      }
      return Ok(());
    }

    /** `finish`: the number of artifacts seen, reported only in verbose mode. */
    method Finish() returns (found: Option<nat>)
      ensures found.Some? <==> verbose
      ensures found.Some? ==> found.value == counter
    {
      if verbose {
        return Some(counter);
      }
      return None;
    }
  }
}
