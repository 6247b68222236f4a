/**
 * The module checker: for each JAR it records whether the JAR is modular, the service
 * providers its module descriptor declares (`provides S with I`), the ones its
 * `META-INF/services/` files declare for the class path, and whether its manifest names
 * an automatic module; at the end it reports, modular JARs first, whether the two
 * declarations agree.
 */
module ModuleChecking {
  import opened Wrappers
  import opened JavaStrings
  import opened JarEnvironment

  /** Service interface name to the set of implementation names. */
  type Providers = map<string, set<string>>

  const DescriptorMissing := "No module descriptor found"
  const ServicesPrefix := "META-INF/services/"
  const ManifestPath := "META-INF/MANIFEST.MF"
  const Indent := "   "

  /** `m` keeps every key and every implementation of `base`. */
  predicate Extends(m: Providers, base: Providers) {
    forall k :: k in base ==> k in m && base[k] <= m[k]
  }

  lemma ExtendsTransitive(a: Providers, b: Providers, c: Providers)
    requires Extends(a, b) && Extends(b, c)
    ensures Extends(a, c)
  {
  }

  /** `m` with `impl` added to the implementations of `spi`, the key being created when absent. */
  function AddProvider(m: Providers, spi: string, impl: string): (r: Providers)
    ensures r.Keys == m.Keys + {spi}
    ensures Extends(r, m) && impl in r[spi]
    ensures r[spi] == (if spi in m then m[spi] else {}) + {impl}
    ensures forall k :: k in r && k != spi ==> r[k] == m[k]
  {
    m[spi := (if spi in m then m[spi] else {}) + {impl}]
  }

  // ---------------------------------------------------------------- provides lines

  predicate IsKeyword(t: string) {
    EqualsIgnoreCase(t, "provides") || EqualsIgnoreCase(t, "with")
  }

  /** The tokens that are not "provides" or "with" in any letter case, in order. */
  function DropKeywords(ts: seq<string>): (r: seq<string>)
    ensures |r| <= |ts|
    ensures forall i :: 0 <= i < |r| ==> !IsKeyword(r[i]) && r[i] in ts
    ensures forall i :: 0 <= i < |ts| && !IsKeyword(ts[i]) ==> ts[i] in r
  {
    if ts == [] then []
    else (if IsKeyword(ts[0]) then [] else [ts[0]]) + DropKeywords(ts[1..])
  }

  /**
   * The filter works token by token: it keeps the order and the multiplicity of the tokens it
   * keeps, and a single token is kept exactly when it is not a keyword.
   */
  lemma {:induction false} DropKeywordsAppend(a: seq<string>, b: seq<string>)
    ensures DropKeywords(a + b) == DropKeywords(a) + DropKeywords(b)
    decreases |a|
  {
    if a == [] {
      assert a + b == b;
    } else {
      assert (a + b)[0] == a[0] && (a + b)[1..] == a[1..] + b;
      DropKeywordsAppend(a[1..], b);
    }
  }

  lemma DropKeywordsSingle(t: string)
    ensures DropKeywords([t]) == if IsKeyword(t) then [] else [t]
  {
    assert [t][1..] == [];
  }

  /** What `scanProvidesLine` keeps of a line: its whitespace-separated words minus the keywords. */
  function ProvidesTokens(line: string): seq<string> {
    DropKeywords(Tokens(Trim(line)))
  }

  /**
   * `scanProvidesLine` on the module-path map: no word leaves it as it is, two words add the
   * second as an implementation of the first, anything else is an error.
   */
  function ScanProvides(m: Providers, line: string): (r: Result<Providers, Error>)
    ensures r.Err? <==> |ProvidesTokens(line)| != 0 && |ProvidesTokens(line)| != 2
    ensures r.Ok? ==> Extends(r.value, m)
    ensures r.Ok? && |ProvidesTokens(line)| == 2 ==>
              ProvidesTokens(line)[0] in r.value && ProvidesTokens(line)[1] in r.value[ProvidesTokens(line)[0]]
    ensures |ProvidesTokens(line)| == 0 ==> r == Ok(m)
    ensures |ProvidesTokens(line)| == 2 ==>
              r == Ok(AddProvider(m, ProvidesTokens(line)[0], ProvidesTokens(line)[1]))
    ensures r.Err? ==> r.error == ProcessorError("Unexpected provides statement: " + line)
  {
    var ts := ProvidesTokens(line);
    if |ts| == 0 then Ok(m)
    else if |ts| == 2 then Ok(AddProvider(m, ts[0], ts[1]))
    else Err(ProcessorError("Unexpected provides statement: " + line))
  }

  /** A word of visible characters: neither whitespace nor trimmed by `String.trim`. */
  predicate IsWord(t: string) {
    t != [] && forall k :: 0 <= k < |t| ==> t[k] > ' '
  }

  lemma WordHasNoWhitespace(t: string)
    requires IsWord(t)
    ensures NoWhitespace(t)
  {
  }

  lemma WordsTokens(a: string, rest: string)
    requires IsWord(a)
    ensures Tokens(a + [' '] + rest) == [a] + Tokens(rest)
  {
    WordHasNoWhitespace(a);
    TokensOfWord(a);
    TokensSplit(a, ' ', rest);
  }

  lemma FourWordsSplit(a: string, b: string, c: string, d: string)
    requires IsWord(a) && IsWord(b) && IsWord(c) && IsWord(d)
    ensures Tokens(a + [' '] + (b + [' '] + (c + [' '] + d))) == [a, b, c, d]
  {
    var cd := c + [' '] + d;
    var bcd := b + [' '] + cd;
    WordHasNoWhitespace(d);
    TokensOfWord(d);
    WordsTokens(c, d);
    assert Tokens(cd) == [c, d];
    WordsTokens(b, cd);
    assert Tokens(bcd) == [b, c, d];
    WordsTokens(a, bcd);
  }

  /** Four words separated by single spaces are trimmed to themselves and split back into the four. */
  lemma FourWords(a: string, b: string, c: string, d: string)
    requires IsWord(a) && IsWord(b) && IsWord(c) && IsWord(d)
    ensures Tokens(Trim(a + " " + b + " " + c + " " + d)) == [a, b, c, d]
  {
    var line := a + " " + b + " " + c + " " + d;
    assert line == a + [' '] + (b + [' '] + (c + [' '] + d));
    FourWordsSplit(a, b, c, d);
    assert line[0] == a[0] && line[|line| - 1] == d[|d| - 1];
    TrimNoop(line);
  }

  /** A module descriptor's provider line, as `jar --describe-module` prints it. */
  function ProvidesLine(spi: string, impl: string): string {
    "provides" + " " + spi + " " + "with" + " " + impl
  }

  /** The descriptor line "provides S with I" adds exactly I as an implementation of S. */
  lemma ProvidesLineParsed(m: Providers, spi: string, impl: string)
    requires IsWord(spi) && IsWord(impl) && !IsKeyword(spi) && !IsKeyword(impl)
    ensures ProvidesTokens(ProvidesLine(spi, impl)) == [spi, impl]
    ensures ScanProvides(m, ProvidesLine(spi, impl)) == Ok(AddProvider(m, spi, impl))
  {
    assert IsWord("provides") && IsWord("with");
    FourWords("provides", spi, "with", impl);
    var ts := ["provides", spi, "with", impl];
    assert IsKeyword("provides") && IsKeyword("with");
    assert DropKeywords(ts[3..]) == [impl] by {
      assert ts[3..][1..] == [];
    }
    assert DropKeywords(ts[2..]) == [impl] by {
      assert ts[2..][1..] == ts[3..];
    }
    assert DropKeywords(ts[1..]) == [spi, impl] by {
      assert ts[1..][1..] == ts[2..];
    }
    assert DropKeywords(ts) == [spi, impl];
  }

  /** Result of scanning many lines: the map reached and how many lines failed. */
  datatype Scan = Scan(providers: Providers, failures: nat)

  /** The descriptor lines that start with "provides", scanned in order; a failing line changes nothing. */
  function ProvidesFold(m: Providers, lines: seq<string>): (s: Scan)
    decreases |lines|
  {
    if lines == [] then Scan(m, 0)
    else ProvidesLine1(ProvidesFold(m, lines[..|lines| - 1]), lines[|lines| - 1])
  }

  /** One descriptor line of the fold. */
  function ProvidesLine1(prev: Scan, line: string): Scan {
    if !StartsWith(line, "provides") then prev
    else match ScanProvides(prev.providers, line)
      case Ok(m') => Scan(m', prev.failures)
      case Err(_) => Scan(prev.providers, prev.failures + 1)
  }

  lemma ProvidesFoldSnoc(m: Providers, lines: seq<string>, i: nat)
    requires i < |lines|
    ensures ProvidesFold(m, lines[..i + 1]) == ProvidesLine1(ProvidesFold(m, lines[..i]), lines[i])
  {
    assert lines[..i + 1][..i] == lines[..i];
  }

  /** Scanning provider lines never loses a key or an implementation. */
  lemma {:induction false} ProvidesFoldExtends(m: Providers, lines: seq<string>)
    ensures Extends(ProvidesFold(m, lines).providers, m)
    decreases |lines|
  {
    if lines != [] {
      ProvidesFoldExtends(m, lines[..|lines| - 1]);
      var prev := ProvidesFold(m, lines[..|lines| - 1]);
      var line := lines[|lines| - 1];
      if StartsWith(line, "provides") && ScanProvides(prev.providers, line).Ok? {
        ExtendsTransitive(ProvidesFold(m, lines).providers, prev.providers, m);
      }
    }
  }

  /** Lines that do not start with "provides" are never looked at, however malformed. */
  lemma {:induction false} ProvidesFoldIgnoresOthers(m: Providers, lines: seq<string>)
    requires forall i :: 0 <= i < |lines| ==> !StartsWith(lines[i], "provides")
    ensures ProvidesFold(m, lines) == Scan(m, 0)
    decreases |lines|
  {
    if lines != [] {
      ProvidesFoldIgnoresOthers(m, lines[..|lines| - 1]);
    }
  }

  // ---------------------------------------------------------------- META-INF/services

  /** A listing line naming a file below META-INF/services/ (but not the directory itself). */
  predicate IsServiceLine(line: string) {
    StartsWith(line, ServicesPrefix) && line != ServicesPrefix
  }

  /** The service interface a services file is for: the line without its prefix, trimmed. */
  function SpiName(line: string): string {
    Trim(ReplaceFirst(line, ServicesPrefix))
  }

  /** The lines of a services file that are taken as implementations: all but "#" comments, untrimmed. */
  function ImplementationsOf(lines: seq<string>): (s: set<string>)
    ensures forall l :: l in s <==> l in lines && !StartsWith(l, "#")
  {
    set i | 0 <= i < |lines| && !StartsWith(lines[i], "#") :: lines[i]
  }

  lemma ImplementationsOfSnoc(lines: seq<string>, i: nat)
    requires i < |lines|
    ensures ImplementationsOf(lines[..i + 1])
            == ImplementationsOf(lines[..i]) + (if StartsWith(lines[i], "#") then {} else {lines[i]})
  {
    assert lines[..i + 1] == lines[..i] + [lines[i]];
  }

  /** `computeIfAbsent(spi, HashSet::new)`: the key is present afterwards, with an empty set if it was new. */
  function Registered(m: Providers, spi: string): (m1: Providers)
    ensures m1.Keys == m.Keys + {spi}
    ensures m1[spi] == if spi in m then m[spi] else {}
    ensures forall k :: k in m1 && k != spi ==> m1[k] == m[k]
  {
    if spi in m then m else m[spi := {}]
  }

  /** The map after one services file, and the error it raised if any. */
  datatype Step = Step(providers: Providers, error: Option<Error>)

  /**
   * `processMetaInfServices` on the class-path map: the interface name must not be empty; its
   * key is registered before the archive is read, so it stays even when reading fails.
   */
  function ServicesStep(m: Providers, archive: Archive, line: string): (s: Step)
    ensures SpiName(line) == [] ==> s.error.Some? && s.providers == m
    ensures SpiName(line) != [] ==> SpiName(line) in s.providers && Extends(s.providers, m)
    ensures SpiName(line) != [] ==> s.providers.Keys == m.Keys + {SpiName(line)}
    ensures s.error.None? <==> SpiName(line) != [] && archive.opens && archive.entries(line).Regular?
    ensures s.error.None? ==>
              s.providers[SpiName(line)] == (if SpiName(line) in m then m[SpiName(line)] else {})
                                            + ImplementationsOf(archive.entries(line).lines)
    ensures forall k :: k in s.providers && k != SpiName(line) ==> s.providers[k] == m[k]
    ensures SpiName(line) != [] && s.error.Some? ==>
              s.providers[SpiName(line)] == (if SpiName(line) in m then m[SpiName(line)] else {})
  {
    var spi := SpiName(line);
    if spi == [] then Step(m, Some(ProcessorError("Unexpected META-INF/services/ line: " + line)))
    else ServicesRead(Registered(m, spi), spi, archive, line)
  }

  /** Reading the services file once `spi` is registered: only the set under `spi` can grow. */
  function ServicesRead(m1: Providers, spi: string, archive: Archive, line: string): (s: Step)
    requires spi in m1
    ensures s.providers.Keys == m1.Keys
    ensures forall k :: k in s.providers && k != spi ==> s.providers[k] == m1[k]
    ensures s.error.None? <==> archive.opens && archive.entries(line).Regular?
    ensures s.error.None? ==> s.providers[spi] == m1[spi] + ImplementationsOf(archive.entries(line).lines)
    ensures s.error.Some? ==> s.providers == m1
  {
    if !archive.opens then Step(m1, Some(ProcessorError("Error processing line: " + line)))
    else match archive.entries(line)
      case Regular(lines) => Step(m1[spi := m1[spi] + ImplementationsOf(lines)], None)
      case NotRegular => Step(m1, Some(ProcessorError("No regular file: " + line)))
      case ReadError => Step(m1, Some(ProcessorError("Error processing line: " + line)))
  }

  /** The service lines of a listing processed in order; a failing line still registers its key. */
  function ServicesFold(m: Providers, archive: Archive, lines: seq<string>): (s: Scan)
    decreases |lines|
  {
    if lines == [] then Scan(m, 0)
    else ServicesLine1(ServicesFold(m, archive, lines[..|lines| - 1]), archive, lines[|lines| - 1])
  }

  /** One listing line of the fold. */
  function ServicesLine1(prev: Scan, archive: Archive, line: string): Scan {
    if !IsServiceLine(line) then prev
    else
      var step := ServicesStep(prev.providers, archive, line);
      Scan(step.providers, prev.failures + (if step.error.Some? then 1 else 0))
  }

  lemma ServicesFoldSnoc(m: Providers, archive: Archive, lines: seq<string>, i: nat)
    requires i < |lines|
    ensures ServicesFold(m, archive, lines[..i + 1]) == ServicesLine1(ServicesFold(m, archive, lines[..i]), archive, lines[i])
  {
    assert lines[..i + 1][..i] == lines[..i];
  }

  lemma {:induction false} ServicesFoldExtends(m: Providers, archive: Archive, lines: seq<string>)
    ensures Extends(ServicesFold(m, archive, lines).providers, m)
    decreases |lines|
  {
    if lines != [] {
      ServicesFoldExtends(m, archive, lines[..|lines| - 1]);
      var prev := ServicesFold(m, archive, lines[..|lines| - 1]);
      var line := lines[|lines| - 1];
      if IsServiceLine(line) {
        ExtendsTransitive(ServicesFold(m, archive, lines).providers, prev.providers, m);
      }
    }
  }

  // ---------------------------------------------------------------- the manifest

  /** `processMetaInfManifest`: whether the manifest names an automatic module, or why it could not be read. */
  function ManifestResult(archive: Archive, jarFile: string): (r: Result<bool, Error>)
    ensures r.Ok? <==> archive.opens && archive.entries(ManifestPath).Regular?
    ensures r.Ok? ==> r.value == archive.automaticModuleName
  {
    if !archive.opens then Err(ProcessorError("Error processing manifest."))
    else match archive.entries(ManifestPath)
      case Regular(_) => Ok(archive.automaticModuleName)
      case NotRegular => Err(ProcessorError("No regular file: " + ManifestPath))
      case ReadError => Err(ProcessorError("Cannot read manifest from: " + jarFile))
  }

  // ---------------------------------------------------------------- compare

  /**
   * `compare` as written: a non-modular JAR is consistent; a modular one is inconsistent when
   * the two maps have different numbers of keys, or when for some interface present in both
   * with equally many implementations, a module-path implementation is missing on the class path.
   */
  predicate ConsistentAsWritten(modular: bool, modulePath: Providers, classPath: Providers) {
    !modular
    || (&& |modulePath.Keys| == |classPath.Keys|
        && forall spi :: spi in modulePath && spi in classPath && |modulePath[spi]| == |classPath[spi]|
                         ==> modulePath[spi] <= classPath[spi])
  }

  lemma IdenticalIsConsistent(modular: bool, m: Providers)
    ensures ConsistentAsWritten(modular, m, m)
  {
  }

  lemma KeyCountMismatchIsInconsistent(modulePath: Providers, classPath: Providers)
    requires |modulePath.Keys| != |classPath.Keys|
    ensures !ConsistentAsWritten(true, modulePath, classPath)
  {
  }

  /** The same interface with one different implementation on each path is reported. */
  lemma DifferentImplementationIsInconsistent()
    ensures !ConsistentAsWritten(true, map["S" := {"A"}], map["S" := {"B"}])
  {
    assert |map["S" := {"A"}].Keys| == 1 && |map["S" := {"B"}].Keys| == 1;
    assert "A" !in {"B"};
  }

  /**
   * As written, an interface declared only on the module path, balanced by another declared
   * only on the class path, is not reported, and neither is a difference in the number of
   * implementations of one interface.
   */
  lemma UncheckedDifferences()
    ensures ConsistentAsWritten(true, map["S" := {"A"}], map["T" := {"A"}])
    ensures ConsistentAsWritten(true, map["S" := {"A"}], map["S" := {"A", "B"}])
  {
    assert map["S" := {"A"}].Keys == {"S"} && map["T" := {"A"}].Keys == {"T"};
    assert |{"A", "B"}| == 2;
  }

  // ---------------------------------------------------------------- reports

  /** What `check` records about one JAR. */
  datatype ResultState = ResultState(
    jarFile: string, modular: bool, definedAutomaticModuleName: bool,
    modularProviders: Providers, nonModularProviders: Providers)

  predicate ConsistentOf(s: ResultState) {
    ConsistentAsWritten(s.modular, s.modularProviders, s.nonModularProviders)
  }

  /** A printed group of provider lines, under an optional title. */
  datatype Section = Section(title: Option<string>, lines: set<string>)

  /** The block `printResult` prints for one JAR (lines of a map come in no particular order). */
  datatype Report = Report(header: string, inconsistent: bool, sections: seq<Section>)

  function ProviderLines(m: Providers): set<string> {
    set spi, impl | spi in m && impl in m[spi] :: Indent + Indent + "provides " + spi + " with " + impl
  }

  function BoolText(b: bool): string {
    if b then "true" else "false"
  }

  /**
   * `printResult`: a header naming the JAR and its kind; a consistent JAR lists its class-path
   * providers, an inconsistent one is flagged and lists both maps under titles, class path last.
   */
  function PrintResult(s: ResultState, consistent: bool): (r: Report)
    ensures r.inconsistent <==> !consistent
    ensures |r.sections| == (if consistent then 1 else 2)
    ensures r.sections[|r.sections| - 1].lines == ProviderLines(s.nonModularProviders)
    ensures s.modular ==> r.header == s.jarFile + " : modular"
    ensures !s.modular ==>
              r.header == s.jarFile + " : non-modular hasDefinedAutomaticModuleName = "
                          + BoolText(s.definedAutomaticModuleName)
    ensures consistent ==> r.sections[0].title == None
    ensures !consistent ==>
              && r.sections[0] == Section(Some("Services provided on module-path:"), ProviderLines(s.modularProviders))
              && r.sections[1].title == Some("Services provided on class-path:")
  {
    var header :=
      if s.modular then s.jarFile + " : modular"
      else s.jarFile + " : non-modular hasDefinedAutomaticModuleName = " + BoolText(s.definedAutomaticModuleName);
    if consistent then
      Report(header, false, [Section(None, ProviderLines(s.nonModularProviders))])
    else
      Report(header, true, [Section(Some("Services provided on module-path:"), ProviderLines(s.modularProviders)),
                            Section(Some("Services provided on class-path:"), ProviderLines(s.nonModularProviders))])
  }

  /** The report of a result once `compare` has run on it. */
  function ReportOf(s: ResultState): Report {
    PrintResult(s, ConsistentOf(s))
  }

  /** `showResult(results, modular)`: the reports of the results with that modularity, in order. */
  function ReportsOf(states: seq<ResultState>, modular: bool): seq<Report>
    decreases |states|
  {
    if states == [] then []
    else
      ReportsOf(states[..|states| - 1], modular)
      + (if states[|states| - 1].modular == modular then [ReportOf(states[|states| - 1])] else [])
  }

  lemma ReportsOfSnoc(states: seq<ResultState>, i: nat, modular: bool)
    requires i < |states|
    ensures ReportsOf(states[..i + 1], modular)
            == ReportsOf(states[..i], modular) + (if states[i].modular == modular then [ReportOf(states[i])] else [])
  {
    assert states[..i + 1][..i] == states[..i];
  }

  /** Only modular JARs can be reported inconsistent. */
  lemma {:induction false} NonModularReportsConsistent(states: seq<ResultState>)
    ensures forall k :: 0 <= k < |ReportsOf(states, false)| ==> !ReportsOf(states, false)[k].inconsistent
    decreases |states|
  {
    if states != [] {
      NonModularReportsConsistent(states[..|states| - 1]);
    }
  }

  function CountModular(states: seq<ResultState>, modular: bool): nat
    decreases |states|
  {
    if states == [] then 0
    else CountModular(states[..|states| - 1], modular) + (if states[|states| - 1].modular == modular then 1 else 0)
  }

  /** The two passes of `finish` together report every JAR exactly once. */
  lemma {:induction false} ReportsPartition(states: seq<ResultState>)
    ensures |ReportsOf(states, true)| == CountModular(states, true)
    ensures |ReportsOf(states, false)| == CountModular(states, false)
    ensures CountModular(states, true) + CountModular(states, false) == |states|
    decreases |states|
  {
    if states != [] {
      ReportsPartition(states[..|states| - 1]);
    }
  }

  // ---------------------------------------------------------------- check, as one function

  /** What checking one JAR leads to: the recorded state, the error count, and the error raised. */
  datatype CheckOutcome = CheckOutcome(state: ResultState, errors: nat, error: Option<Error>)

  /**
   * `check`: the manifest, then the module descriptor (scanned only for a modular JAR), then
   * the services files; each stage stops the check with an error, and the per-line stages fail
   * once the processor's error count is positive.
   */
  function CheckSpec(tool: JarTool, disk: Disk, jarFile: string, errors: nat): (o: CheckOutcome)
    ensures o.errors >= errors
    ensures o.error.None? ==> o.errors == errors == 0
  {
    var initial := ResultState(jarFile, false, false, map[], map[]);
    match ManifestResult(disk.archive(jarFile), jarFile)
    case Err(e) => CheckOutcome(initial, errors, Some(e))
    case Ok(automatic) => DescriptorStage(tool, disk, initial.(definedAutomaticModuleName := automatic), errors)
  }

  /**
   * `findModularServiceProviders` from state `s`: a tool failure stops the check; otherwise the
   * JAR's modularity is recorded and, for a modular JAR, the descriptor is scanned, the check
   * stopping once the error count is positive.
   */
  function DescriptorScan(tool: JarTool, s: ResultState, errors: nat): (o: CheckOutcome)
    ensures o.state == s.(modular := o.state.modular, modularProviders := o.state.modularProviders)
    ensures Extends(o.state.modularProviders, s.modularProviders)
    ensures o.errors >= errors
    ensures o.error.None? && o.state.modular ==> o.errors == 0
    ensures !o.state.modular ==> o.state.modularProviders == s.modularProviders && o.errors == errors
    ensures tool.describeModule(s.jarFile).status != 0 ==>
              o == CheckOutcome(s, errors, Some(ProcessorError("jar tool terminated with errors.")))
    ensures tool.describeModule(s.jarFile).status == 0 ==>
              o.state.modular == !StartsWith(tool.describeModule(s.jarFile).output, DescriptorMissing)
    ensures tool.describeModule(s.jarFile).status == 0 ==>
              (o.error.Some? <==> o.state.modular && o.errors > 0)
  {
    var describe := tool.describeModule(s.jarFile);
    if describe.status != 0 then
      CheckOutcome(s, errors, Some(ProcessorError("jar tool terminated with errors.")))
    else
      var modular := !StartsWith(describe.output, DescriptorMissing);
      ProvidesFoldExtends(s.modularProviders, Lines(describe.output));
      var scan := if modular then ProvidesFold(s.modularProviders, Lines(describe.output)) else Scan(s.modularProviders, 0);
      var s1 := s.(modular := modular, modularProviders := scan.providers);
      var e1 := errors + scan.failures;
      if modular && e1 > 0 then
        CheckOutcome(s1, e1, Some(ProcessorError("findModularServiceProviders terminated with errors.")))
      else
        CheckOutcome(s1, e1, None)
  }

  /**
   * For a modular JAR the module-path map and the error count are exactly those of scanning every
   * line of the descriptor (kept out of `DescriptorScan`'s contract so that its callers need not carry it).
   */
  lemma DescriptorScanProviders(tool: JarTool, s: ResultState, errors: nat)
    requires tool.describeModule(s.jarFile).status == 0
    requires DescriptorScan(tool, s, errors).state.modular
    ensures var scan := ProvidesFold(s.modularProviders, Lines(tool.describeModule(s.jarFile).output));
            && DescriptorScan(tool, s, errors).state.modularProviders == scan.providers
            && DescriptorScan(tool, s, errors).errors == errors + scan.failures
  {
  }

  /** `check` from `findModularServiceProviders` on, starting from state `s`. */
  function DescriptorStage(tool: JarTool, disk: Disk, s: ResultState, errors: nat): (o: CheckOutcome)
    ensures o.errors >= errors
    ensures o.error.None? ==> o.errors == errors == 0
  {
    var d := DescriptorScan(tool, s, errors);
    if d.error.Some? then d else ServicesStage(tool, disk, d.state, d.errors)
  }

  /** `check` from `findNonModularServiceProviders` on, starting from state `s`. */
  function ServicesStage(tool: JarTool, disk: Disk, s: ResultState, errors: nat): (o: CheckOutcome)
    ensures o.errors >= errors
    ensures o.error.None? ==> o.errors == errors == 0
    ensures o.state == s.(nonModularProviders := o.state.nonModularProviders)
  {
    var listing := tool.list(s.jarFile);
    if listing.status != 0 then
      CheckOutcome(s, errors, Some(ProcessorError("jar tool terminated with errors.")))
    else
      var services := ServicesFold(s.nonModularProviders, disk.archive(s.jarFile), Lines(listing.output));
      var s2 := s.(nonModularProviders := services.providers);
      var e2 := errors + services.failures;
      if e2 > 0 then
        CheckOutcome(s2, e2, Some(ProcessorError("findNonModularServiceProviders terminated with errors.")))
      else
        CheckOutcome(s2, e2, None)
  }

  // ---------------------------------------------------------------- the processor

  class CheckResult {
    const jarFile: string
    var modularProviders: Providers
    var nonModularProviders: Providers
    var modular: bool
    var consistent: bool
    var definedAutomaticModuleName: bool

    constructor (jarFile: string)
      ensures State() == ResultState(jarFile, false, false, map[], map[]) && !consistent
    {
      this.jarFile := jarFile;
      modularProviders := map[];
      nonModularProviders := map[];
      modular := false;
      consistent := false;
      definedAutomaticModuleName := false;
    }

    function State(): ResultState
      reads this
    {
      ResultState(jarFile, modular, definedAutomaticModuleName, modularProviders, nonModularProviders)
    }
  }

  /** The recorded states of a list of results, in order. */
  function Snapshots(rs: seq<CheckResult>): (ss: seq<ResultState>)
    reads set r | r in rs
    ensures |ss| == |rs|
    ensures forall j :: 0 <= j < |rs| ==> ss[j] == rs[j].State()
    decreases |rs|
  {
    if rs == [] then [] else Snapshots(rs[..|rs| - 1]) + [rs[|rs| - 1].State()]
  }

  /**
   * The module checker: `start` clears the results, `process` checks one JAR and keeps its
   * result, `finish` compares and reports them all. `errors` counts failed lines since `start`.
   */
  class ModuleChecker {
    var checkResults: seq<CheckResult>
    var errors: nat
    var verbose: bool
    var jar: Option<JarTool>

    constructor ()
      ensures checkResults == [] && errors == 0 && !verbose && jar == None
    {
      checkResults := [];
      errors := 0;
      verbose := false;
      jar := None;
    }

    method Initialize(tool: JarTool, verbose: bool)
      modifies this`jar, this`verbose
      ensures jar == Some(tool) && this.verbose == verbose
    {
      jar := Some(tool);
      this.verbose := verbose;
    }

    method Start()
      modifies this`checkResults, this`errors
      ensures checkResults == [] && errors == 0
    {
      checkResults := [];
      errors := 0;
    }

    /** One "provides" line of the module descriptor, applied to the module-path map. */
    method ScanProvidesLine(result: CheckResult, line: string) returns (r: Result<(), Error>)
      modifies result`modularProviders
      ensures var s := ScanProvides(old(result.modularProviders), line);
              && (s.Ok? ==> r == Ok(()) && result.modularProviders == s.value)
              && (s.Err? ==> r == Err(s.error) && result.modularProviders == old(result.modularProviders))
    {
      var ts := ProvidesTokens(line);
      if |ts| == 0 {
        return Ok(());
      } else if |ts| == 2 {
        if ts[0] !in result.modularProviders {
          result.modularProviders := result.modularProviders[ts[0] := {}];
        }
        result.modularProviders := result.modularProviders[ts[0] := result.modularProviders[ts[0]] + {ts[1]}];
        return Ok(());
      } else {
        return Err(ProcessorError("Unexpected provides statement: " + line));
      }
    }

    /** The descriptor lines, each starting with "provides" scanned; a failing line counts an error. */
    method ScanDescriptor(result: CheckResult, lines: seq<string>)
      modifies this`errors, result`modularProviders
      ensures result.modularProviders == ProvidesFold(old(result.modularProviders), lines).providers
      ensures errors == old(errors) + ProvidesFold(old(result.modularProviders), lines).failures
    {
      ghost var m0 := result.modularProviders;
      ghost var e0 := errors;
      var i := 0;
      while i < |lines|
        invariant 0 <= i <= |lines|
        invariant result.modularProviders == ProvidesFold(m0, lines[..i]).providers
        invariant errors == e0 + ProvidesFold(m0, lines[..i]).failures
      {
        ProvidesFoldSnoc(m0, lines, i);
        if StartsWith(lines[i], "provides") {
          var ok := ScanProvidesLine(result, lines[i]);
          if ok.Err? {
            errors := errors + 1;
          }
        }
        i := i + 1;
      }
      assert lines[..|lines|] == lines;
    }

    /** Runs `jar --describe-module`, records modularity and scans the "provides" lines. */
    method FindModularServiceProviders(result: CheckResult) returns (r: Result<(), Error>)
      requires jar.Some?
      modifies this`errors, result`modular, result`modularProviders
      ensures var d := DescriptorScan(jar.value, old(result.State()), old(errors));
              && result.State() == d.state
              && errors == d.errors
              && (r.Err? <==> d.error.Some?)
              && (r.Err? ==> r.error == d.error.value)
    {
      var run := jar.value.describeModule(result.jarFile);
      if run.status != 0 {
        return Err(ProcessorError("jar tool terminated with errors."));
      }
      result.modular := !StartsWith(run.output, DescriptorMissing);
      if result.modular {
        ScanDescriptor(result, Lines(run.output));
        if errors > 0 {
          return Err(ProcessorError("findModularServiceProviders terminated with errors."));
        }
      }
      return Ok(());
    }

    /** One META-INF/services/ file of the listing, added to the class-path map. */
    method ProcessMetaInfServices(disk: Disk, result: CheckResult, line: string) returns (r: Result<(), Error>)
      modifies result`nonModularProviders
      ensures var step := ServicesStep(old(result.nonModularProviders), disk.archive(result.jarFile), line);
              && result.nonModularProviders == step.providers
              && (r.Err? <==> step.error.Some?)
              && (r.Err? ==> r.error == step.error.value)
    {
      var spi := SpiName(line);
      if spi == [] {
        return Err(ProcessorError("Unexpected META-INF/services/ line: " + line));
      }
      if spi !in result.nonModularProviders {
        result.nonModularProviders := result.nonModularProviders[spi := {}];
      }
      var archive := disk.archive(result.jarFile);
      if !archive.opens {
        return Err(ProcessorError("Error processing line: " + line));
      }
      match archive.entries(line)
      case NotRegular =>
        return Err(ProcessorError("No regular file: " + line));
      case ReadError =>
        return Err(ProcessorError("Error processing line: " + line));
      case Regular(lines) =>
        AddImplementations(result, spi, lines);
        return Ok(());
    }

    /** The lines of one services file that are not "#" comments, added to the implementations of `spi`. */
    method AddImplementations(result: CheckResult, spi: string, lines: seq<string>)
      requires spi in result.nonModularProviders
      modifies result`nonModularProviders
      ensures result.nonModularProviders
              == old(result.nonModularProviders)[spi := old(result.nonModularProviders)[spi] + ImplementationsOf(lines)]
    {
      ghost var m1 := result.nonModularProviders;
      assert ImplementationsOf(lines[..0]) == {};
      assert m1[spi] + {} == m1[spi];
      assert m1[spi := m1[spi]] == m1;
      var i := 0;
      while i < |lines|
        invariant 0 <= i <= |lines|
        invariant result.nonModularProviders == m1[spi := m1[spi] + ImplementationsOf(lines[..i])]
      {
        ImplementationsOfSnoc(lines, i);
        if !StartsWith(lines[i], "#") {
          ghost var found := m1[spi] + ImplementationsOf(lines[..i]);
          assert result.nonModularProviders[spi] == found;
          result.nonModularProviders := result.nonModularProviders[spi := result.nonModularProviders[spi] + {lines[i]}];
          assert found + {lines[i]} == m1[spi] + ImplementationsOf(lines[..i + 1]);
          assert result.nonModularProviders == m1[spi := m1[spi] + ImplementationsOf(lines[..i + 1])];
        } else {
          assert ImplementationsOf(lines[..i + 1]) == ImplementationsOf(lines[..i]);
        }
        i := i + 1;
      }
      assert lines[..|lines|] == lines;
    }

    /** The listing lines, each naming a services file processed; a failing file counts an error. */
    method ScanListing(disk: Disk, result: CheckResult, lines: seq<string>)
      modifies this`errors, result`nonModularProviders
      ensures var scan := ServicesFold(old(result.nonModularProviders), disk.archive(result.jarFile), lines);
              result.nonModularProviders == scan.providers && errors == old(errors) + scan.failures
    {
      ghost var archive := disk.archive(result.jarFile);
      ghost var m0 := result.nonModularProviders;
      ghost var e0 := errors;
      var i := 0;
      while i < |lines|
        invariant 0 <= i <= |lines|
        invariant result.nonModularProviders == ServicesFold(m0, archive, lines[..i]).providers
        invariant errors == e0 + ServicesFold(m0, archive, lines[..i]).failures
      {
        ServicesFoldSnoc(m0, archive, lines, i);
        if IsServiceLine(lines[i]) {
          var ok := ProcessMetaInfServices(disk, result, lines[i]);
          if ok.Err? {
            errors := errors + 1;
          }
        }
        i := i + 1;
      }
      assert lines[..|lines|] == lines;
    }

    /** Runs `jar --list` and processes every META-INF/services/ file it names. */
    method FindNonModularServiceProviders(disk: Disk, result: CheckResult) returns (r: Result<(), Error>)
      requires jar.Some?
      modifies this`errors, result`nonModularProviders
      ensures var run := jar.value.list(result.jarFile);
              && (run.status != 0 ==>
                    && r == Err(ProcessorError("jar tool terminated with errors."))
                    && result.nonModularProviders == old(result.nonModularProviders)
                    && errors == old(errors))
              && (run.status == 0 ==>
                    var scan := ServicesFold(old(result.nonModularProviders), disk.archive(result.jarFile), Lines(run.output));
                    && result.nonModularProviders == scan.providers
                    && errors == old(errors) + scan.failures
                    && (r.Err? <==> errors > 0)
                    && (r.Err? ==> r.error == ProcessorError("findNonModularServiceProviders terminated with errors.")))
    {
      var run := jar.value.list(result.jarFile);
      if run.status != 0 {
        return Err(ProcessorError("jar tool terminated with errors."));
      }
      ScanListing(disk, result, Lines(run.output));
      if errors > 0 {
        return Err(ProcessorError("findNonModularServiceProviders terminated with errors."));
      }
      return Ok(());
    }

    /** Reads the manifest and records whether it names an automatic module. */
    method ProcessMetaInfManifest(disk: Disk, result: CheckResult) returns (r: Result<(), Error>)
      modifies result`definedAutomaticModuleName
      ensures var m := ManifestResult(disk.archive(result.jarFile), result.jarFile);
              && (m.Ok? ==> r == Ok(()) && result.definedAutomaticModuleName == m.value)
              && (m.Err? ==> r == Err(m.error) && result.definedAutomaticModuleName == old(result.definedAutomaticModuleName))
    {
      var archive := disk.archive(result.jarFile);
      if !archive.opens {
        return Err(ProcessorError("Error processing manifest."));
      }
      match archive.entries(ManifestPath)
      case Regular(_) =>
        result.definedAutomaticModuleName := archive.automaticModuleName;
        return Ok(());
      case NotRegular =>
        return Err(ProcessorError("No regular file: " + ManifestPath));
      case ReadError =>
        return Err(ProcessorError("Cannot read manifest from: " + result.jarFile));
    }

    /** Checks a newly created result: manifest, module descriptor, then services files. */
    method Check(disk: Disk, result: CheckResult) returns (r: Result<(), Error>)
      requires jar.Some?
      requires result.State() == ResultState(result.jarFile, false, false, map[], map[])
      modifies this`errors, result`modular, result`modularProviders, result`nonModularProviders,
               result`definedAutomaticModuleName
      ensures var o := CheckSpec(jar.value, disk, result.jarFile, old(errors));
              && result.State() == o.state
              && errors == o.errors
              && (r.Err? <==> o.error.Some?)
              && (r.Err? ==> r.error == o.error.value)
    {
      ghost var tool := jar.value;
      r := ProcessMetaInfManifest(disk, result);
      if r.Err? {
        assert CheckSpec(tool, disk, result.jarFile, errors) == CheckOutcome(result.State(), errors, Some(r.error));
        return;
      }
      ghost var s0 := result.State();
      ghost var e0 := errors;
      assert CheckSpec(tool, disk, result.jarFile, e0) == DescriptorStage(tool, disk, s0, e0);
      r := FindModularServiceProviders(result);
      if r.Err? {
        assert DescriptorStage(tool, disk, s0, e0) == CheckOutcome(result.State(), errors, Some(r.error));
        return;
      }
      ghost var s1 := result.State();
      ghost var e1 := errors;
      assert DescriptorStage(tool, disk, s0, e0) == ServicesStage(tool, disk, s1, e1);
      r := FindNonModularServiceProviders(disk, result);
      assert ServicesStage(tool, disk, s1, e1)
             == CheckOutcome(result.State(), errors, if r.Err? then Some(r.error) else None);
    }

    /** `process`: the argument must name a readable JAR; a JAR that checks cleanly is kept. */
    method Process(disk: Disk, arg: string) returns (r: Result<(), Error>)
      requires jar.Some?
      modifies this`checkResults, this`errors
      ensures forall o :: o in checkResults ==> o in old(checkResults) || fresh(o)
      ensures var f := JarFile(disk, arg);
              && (f.Err? ==> r == Err(f.error) && checkResults == old(checkResults) && errors == old(errors))
              && (f.Ok? ==>
                    var o := CheckSpec(jar.value, disk, f.value, old(errors));
                    && errors == o.errors
                    && (r.Err? <==> o.error.Some?)
                    && (r.Err? ==> r.error == o.error.value && checkResults == old(checkResults))
                    && (r.Ok? ==>
                          && |checkResults| == |old(checkResults)| + 1
                          && checkResults[..|old(checkResults)|] == old(checkResults)
                          && fresh(checkResults[|old(checkResults)|])
                          && checkResults[|old(checkResults)|].State() == o.state))
    {
      var f := JarFile(disk, arg);
      if f.Err? {
        return Err(f.error);
      }
      var result := new CheckResult(f.value);
      r := Check(disk, result);
      if r.Ok? {
        checkResults := checkResults + [result];
      }
    }

    /** `compare` as written; see `ConsistentAsWritten`. */
    method Compare(result: CheckResult)
      modifies result`consistent
      ensures result.consistent == ConsistentOf(result.State())
    {
      result.consistent := true;
      if result.modular {
        var mp := result.modularProviders;
        var np := result.nonModularProviders;
        if |mp| == |np| {
          var todo := mp.Keys;
          while todo != {}
            invariant todo <= mp.Keys
            invariant result.consistent
                      == forall spi :: spi in mp && spi !in todo && spi in np && |mp[spi]| == |np[spi]|
                                       ==> mp[spi] <= np[spi]
            decreases |todo|
          {
            var spi :| spi in todo;
            var modImpls := mp[spi];
            if spi in np && |modImpls| == |np[spi]| {
              var nonModImpls := np[spi];
              ghost var before := result.consistent;
              var impls := modImpls;
              while impls != {}
                invariant impls <= modImpls
                invariant result.consistent == (before && forall impl :: impl in modImpls && impl !in impls ==> impl in nonModImpls)
                decreases |impls|
              {
                var impl :| impl in impls;
                if impl !in nonModImpls {
                  result.consistent := false;
                }
                impls := impls - {impl};
              }
            }
            todo := todo - {spi};
          }
        } else {
          result.consistent := false;
        }
      }
    }

    /**
     * `showResult`: compares and reports, in order, the results whose modularity is `modular`;
     * results of the other kind are left as they are.
     */
    method ShowResult(modular: bool) returns (reports: seq<Report>)
      modifies set r | r in checkResults
      ensures forall j :: 0 <= j < |checkResults| ==> checkResults[j].State() == old(checkResults[j].State())
      ensures reports == ReportsOf(old(Snapshots(checkResults)), modular)
    {
      ghost var states := Snapshots(checkResults);
      reports := [];
      var i := 0;
      while i < |checkResults|
        invariant 0 <= i <= |checkResults|
        invariant forall j :: 0 <= j < |checkResults| ==> checkResults[j].State() == states[j]
        invariant reports == ReportsOf(states[..i], modular)
      {
        ReportsOfSnoc(states, i, modular);
        var shown := ShowOne(checkResults[i], modular);
        reports := reports + shown;
        i := i + 1;
      }
      assert states[..|states|] == states;
    }

    /** The body of `showResult` for one result: compare and print it when its kind matches. */
    method ShowOne(r: CheckResult, modular: bool) returns (shown: seq<Report>)
      modifies r`consistent
      ensures r.State() == old(r.State())
      ensures shown == if r.modular == modular then [ReportOf(r.State())] else []
    {
      shown := [];
      if r.modular == modular {
        Compare(r);
        shown := [PrintResult(r.State(), r.consistent)];
      }
    }

    /** `finish`: the modular results first, then the non-modular ones. */
    method Finish() returns (modularReports: seq<Report>, nonModularReports: seq<Report>)
      modifies set r | r in checkResults
      ensures modularReports == ReportsOf(old(Snapshots(checkResults)), true)
      ensures nonModularReports == ReportsOf(old(Snapshots(checkResults)), false)
      ensures forall j :: 0 <= j < |checkResults| ==> checkResults[j].State() == old(checkResults[j].State())
    {
      ghost var states := Snapshots(checkResults);
      modularReports := ShowResult(true);
      assert Snapshots(checkResults) == states;
      nonModularReports := ShowResult(false);
    }
  }
}
