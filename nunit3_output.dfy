/** NUnit3XmlOutputWriter: writes a test, or the result of a test run, as an
    NUnit 3 XML document.

    The pure part says which events make up each document (`TestDocument`,
    `ResultDocument`) and proves what the format promises about them; the
    class `NUnit3XmlOutputWriter` makes the same writer calls, in the same
    order, as the C# class and is proved to send exactly those documents. */
module NUnit3Xml {
  import opened XmlEvents
  import opened XmlWriterModel

  // ---------------------------------------------------------------------
  // Inputs

  /** TestStatus, in declaration order; `StatusName` is its `ToString()`. */
  datatype TestStatus = Inconclusive | Skipped | Passed | Failed

  function StatusName(s: TestStatus): string {
    match s
    case Inconclusive => "Inconclusive"
    case Skipped => "Skipped"
    case Passed => "Passed"
    case Failed => "Failed"
  }

  /** A C# `int`. */
  type Int32 = x: int | -0x8000_0000 <= x < 0x8000_0000

  /** Unchecked C# `int` arithmetic: the 32-bit two's-complement value of `x`. */
  function Wrap32(x: int): (w: Int32)
    ensures (w - x) % 0x1_0000_0000 == 0
    ensures -0x8000_0000 <= x < 0x8000_0000 ==> w == x
  {
    (x + 0x8000_0000) % 0x1_0000_0000 - 0x8000_0000
  }

  datatype ResultState = ResultState(status: TestStatus, labelText: string)

  /** An ITest; `xml` is what `ToXml(true).WriteTo` replays into the writer. */
  datatype Test = Test(xml: seq<Event>)

  /** An ITestResult. The times and the duration arrive already formatted
      ("u" and "0.000000"); `xml` is what `ToXml(true).WriteTo` replays. */
  datatype TestResult = TestResult(
    name: string,
    fullName: string,
    testCaseCount: Int32,        // result.Test.TestCaseCount
    resultState: ResultState,
    startTime: string,
    endTime: string,
    duration: string,
    passCount: Int32,
    failCount: Int32,
    skipCount: Int32,
    inconclusiveCount: Int32,
    assertCount: Int32,
    xml: seq<Event>)

  /** The conditional-compilation symbols the runner was built with. */
  datatype Platform = Platform(netcore: bool, netcf: bool, silverlight: bool)

  /** The host facts the environment element reports, already as strings. */
  datatype Host = Host(
    nunitVersion: string,      // version of the executing assembly
    clrVersion: string,
    osVersion: string,
    osPlatform: string,
    currentDirectory: string,  // Environment.CurrentDirectory or Directory.GetCurrentDirectory()
    machineName: string,
    userName: string,
    userDomainName: string,
    culture: string,
    uiCulture: string)

  // ---------------------------------------------------------------------
  // The documents

  /** The attributes of `test-run`, in the order InitializeXmlFile writes
      them, in the groups the C# code writes them in. */
  function HeaderAttributes(r: TestResult, seed: Int32): seq<Event> {
    IdentityAttributes(r) + OutcomeAttributes(r) + TimeAttributes(r) + CountAttributes(r)
    + [Attr("random-seed", Num(seed))]
  }

  function IdentityAttributes(r: TestResult): seq<Event> {
    [Attr("id", Str("2")),
     Attr("name", Str(r.name)),
     Attr("fullname", Str(r.fullName)),
     Attr("testcasecount", Num(r.testCaseCount))]
  }

  /** `result`, then `label` only when the label is not empty. */
  function OutcomeAttributes(r: TestResult): seq<Event> {
    if r.resultState.labelText != ""
    then [Attr("result", Str(StatusName(r.resultState.status))), Attr("label", Str(r.resultState.labelText))]
    else [Attr("result", Str(StatusName(r.resultState.status)))]
  }

  function TimeAttributes(r: TestResult): seq<Event> {
    [Attr("start-time", Str(r.startTime)),
     Attr("end-time", Str(r.endTime)),
     Attr("duration", Str(r.duration))]
  }

  /** The four outcome counters added up as C# `int`s, which wraps past 2^31 - 1. */
  function Total(r: TestResult): Int32 {
    Wrap32(r.passCount + r.failCount + r.skipCount + r.inconclusiveCount)
  }

  function CountAttributes(r: TestResult): seq<Event> {
    [Attr("total", Num(Total(r))),
     Attr("passed", Num(r.passCount)),
     Attr("failed", Num(r.failCount)),
     Attr("inconclusive", Num(r.inconclusiveCount)),
     Attr("skipped", Num(r.skipCount)),
     Attr("asserts", Num(r.assertCount))]
  }

  /** The attributes of `environment`, in the order WriteEnvironmentElement
      writes them; which host facts appear depends on the platform. */
  function EnvironmentAttributes(h: Host, pf: Platform): seq<Event> {
    [Attr("nunit-version", Str(h.nunitVersion))]
    + RuntimeAttributes(h, pf)
    + LocationAttributes(h, pf)
    + [Attr("culture", Str(h.culture)),
       Attr("uiculture", Str(h.uiCulture))]
  }

  /** Written unless NETCORE. */
  function RuntimeAttributes(h: Host, pf: Platform): seq<Event> {
    if !pf.netcore
    then [Attr("clr-version", Str(h.clrVersion)),
          Attr("os-version", Str(h.osVersion)),
          Attr("platform", Str(h.osPlatform))]
    else []
  }

  /** `cwd` unless NETCF, followed by MachineAttributes. */
  function LocationAttributes(h: Host, pf: Platform): seq<Event> {
    if !pf.netcf then [Attr("cwd", Str(h.currentDirectory))] + MachineAttributes(h, pf) else []
  }

  /** The identity of machine and user, unless SILVERLIGHT or NETCORE. */
  function MachineAttributes(h: Host, pf: Platform): seq<Event> {
    if !pf.silverlight && !pf.netcore
    then [Attr("machine-name", Str(h.machineName)),
          Attr("user", Str(h.userName)),
          Attr("user-domain", Str(h.userDomainName))]
    else []
  }

  function EnvironmentElement(h: Host, pf: Platform): seq<Event> {
    [StartEl("environment")] + EnvironmentAttributes(h, pf) + [EndEl]
  }

  /** Everything InitializeXmlFile writes: declaration, `test-run` start tag
      with its attributes, and the environment element. */
  function Prologue(r: TestResult, seed: Int32, h: Host, pf: Platform): seq<Event> {
    [StartDoc(false), StartEl("test-run")] + HeaderAttributes(r, seed) + EnvironmentElement(h, pf)
  }

  /** Everything TerminateXmlFile writes. */
  const Epilogue: seq<Event> := [EndEl, EndDoc, Flush, Close]

  /** The document WriteResultFile sends to its TextWriter. */
  function ResultDocument(r: TestResult, seed: Int32, h: Host, pf: Platform): seq<Event> {
    Prologue(r, seed, h, pf) + r.xml + Epilogue
  }

  /** The document WriteTestFile sends to its TextWriter. */
  function TestDocument(t: Test): seq<Event> {
    t.xml + [Close]
  }

  // ---------------------------------------------------------------------
  // What the documents promise

  /** The attribute names of `test-run`, in the order they are written. */
  function HeaderNames(labelled: bool): seq<string> {
    IdentityNames() + OutcomeNames(labelled) + TimeNames() + CountNames() + ["random-seed"]
  }

  function IdentityNames(): seq<string> {
    ["id", "name", "fullname", "testcasecount"]
  }

  function OutcomeNames(labelled: bool): seq<string> {
    if labelled then ["result", "label"] else ["result"]
  }

  function TimeNames(): seq<string> {
    ["start-time", "end-time", "duration"]
  }

  function CountNames(): seq<string> {
    ["total", "passed", "failed", "inconclusive", "skipped", "asserts"]
  }

  /** HeaderNames spelled out, with and without a label. */
  lemma HeaderNamesListed(labelled: bool)
    ensures labelled ==> (HeaderNames(labelled) ==
      ["id", "name", "fullname", "testcasecount", "result", "label", "start-time", "end-time",
       "duration", "total", "passed", "failed", "inconclusive", "skipped", "asserts", "random-seed"])
    ensures !labelled ==> (HeaderNames(labelled) ==
      ["id", "name", "fullname", "testcasecount", "result", "start-time", "end-time",
       "duration", "total", "passed", "failed", "inconclusive", "skipped", "asserts", "random-seed"])
  {
  }

  /** `test-run` carries exactly the attributes HeaderNames lists, in that
      order; `id` comes first and is always "2", `random-seed` comes last and
      is the supplied initial seed. */
  lemma HeaderOrder(r: TestResult, seed: Int32)
    ensures AllAttrs(HeaderAttributes(r, seed))
    ensures AttrNames(HeaderAttributes(r, seed)) == HeaderNames(r.resultState.labelText != "")
    ensures HeaderAttributes(r, seed)[0] == Attr("id", Str("2"))
    ensures HeaderAttributes(r, seed)[|HeaderAttributes(r, seed)| - 1] == Attr("random-seed", Num(seed))
  {
    var id, out, tm, ct := IdentityAttributes(r), OutcomeAttributes(r), TimeAttributes(r), CountAttributes(r);
    var sd := [Attr("random-seed", Num(seed))];
    GroupNames(r);
    assert AttrNames(sd) == ["random-seed"];
    AttrNamesConcat(id, out);
    AttrNamesConcat(id + out, tm);
    AttrNamesConcat(id + out + tm, ct);
    AttrNamesConcat(id + out + tm + ct, sd);
  }

  lemma GroupNames(r: TestResult)
    ensures AllAttrs(IdentityAttributes(r)) && AllAttrs(OutcomeAttributes(r))
    ensures AllAttrs(TimeAttributes(r)) && AllAttrs(CountAttributes(r))
    ensures AttrNames(IdentityAttributes(r)) == IdentityNames()
    ensures AttrNames(OutcomeAttributes(r)) == OutcomeNames(r.resultState.labelText != "")
    ensures AttrNames(TimeAttributes(r)) == TimeNames()
    ensures AttrNames(CountAttributes(r)) == CountNames()
  {
  }

  /** No attribute name of `test-run` occurs twice. */
  lemma HeaderNamesDistinct(labelled: bool)
    ensures Distinct(HeaderNames(labelled))
  {
  }

  /** Each `test-run` attribute below is written, with the value shown, and
      is the only attribute of that name. */
  lemma HeaderCarries(r: TestResult, seed: Int32, n: string, v: Value)
    requires Attr(n, v) in HeaderAttributes(r, seed)
    ensures Carries(HeaderAttributes(r, seed), n, v)
  {
    HeaderOrder(r, seed);
    HeaderNamesDistinct(r.resultState.labelText != "");
    DistinctCarries(HeaderAttributes(r, seed), n, v);
  }

  /** The identity attributes carry the result's name and full name and the
      test's case count, and no other attribute has those names. */
  lemma IdentityValues(r: TestResult, seed: Int32)
    ensures Carries(HeaderAttributes(r, seed), "id", Str("2"))
    ensures Carries(HeaderAttributes(r, seed), "name", Str(r.name))
    ensures Carries(HeaderAttributes(r, seed), "fullname", Str(r.fullName))
    ensures Carries(HeaderAttributes(r, seed), "testcasecount", Num(r.testCaseCount))
  {
    var h := HeaderAttributes(r, seed);
    assert h == IdentityAttributes(r) + (OutcomeAttributes(r) + TimeAttributes(r)
      + CountAttributes(r) + [Attr("random-seed", Num(seed))]);
    HeaderCarries(r, seed, "id", Str("2"));
    HeaderCarries(r, seed, "name", Str(r.name));
    HeaderCarries(r, seed, "fullname", Str(r.fullName));
    HeaderCarries(r, seed, "testcasecount", Num(r.testCaseCount));
  }

  /** `result` is the name of the outcome's status. */
  lemma OutcomeValue(r: TestResult, seed: Int32)
    ensures Carries(HeaderAttributes(r, seed), "result", Str(StatusName(r.resultState.status)))
  {
    assert HeaderAttributes(r, seed)[4] == OutcomeAttributes(r)[0];
    HeaderCarries(r, seed, "result", Str(StatusName(r.resultState.status)));
  }

  /** The times and the duration are the result's own. */
  lemma TimeValues(r: TestResult, seed: Int32)
    ensures Carries(HeaderAttributes(r, seed), "start-time", Str(r.startTime))
    ensures Carries(HeaderAttributes(r, seed), "end-time", Str(r.endTime))
    ensures Carries(HeaderAttributes(r, seed), "duration", Str(r.duration))
  {
    var pre := IdentityAttributes(r) + OutcomeAttributes(r);
    assert HeaderAttributes(r, seed) == pre + TimeAttributes(r) + (CountAttributes(r) + [Attr("random-seed", Num(seed))]);
    HeaderCarries(r, seed, "start-time", Str(r.startTime));
    HeaderCarries(r, seed, "end-time", Str(r.endTime));
    HeaderCarries(r, seed, "duration", Str(r.duration));
  }

  /** `total` is the sum of the four outcome counters as C# computes it
      (wrapping past 2^31 - 1, and the exact sum whenever that fits);
      `passed`, `failed`, `inconclusive`, `skipped` and `asserts` are each
      their own counter, and `random-seed` is the seed. */
  lemma CountValues(r: TestResult, seed: Int32)
    ensures Carries(HeaderAttributes(r, seed), "total", Num(Total(r)))
    ensures (var sum := r.passCount + r.failCount + r.skipCount + r.inconclusiveCount;
             -0x8000_0000 <= sum < 0x8000_0000 ==> Total(r) == sum)
    ensures Carries(HeaderAttributes(r, seed), "passed", Num(r.passCount))
    ensures Carries(HeaderAttributes(r, seed), "failed", Num(r.failCount))
    ensures Carries(HeaderAttributes(r, seed), "inconclusive", Num(r.inconclusiveCount))
    ensures Carries(HeaderAttributes(r, seed), "skipped", Num(r.skipCount))
    ensures Carries(HeaderAttributes(r, seed), "asserts", Num(r.assertCount))
    ensures Carries(HeaderAttributes(r, seed), "random-seed", Num(seed))
  {
    var pre := IdentityAttributes(r) + OutcomeAttributes(r) + TimeAttributes(r);
    assert HeaderAttributes(r, seed) == pre + CountAttributes(r) + [Attr("random-seed", Num(seed))];
    HeaderCarries(r, seed, "total", Num(Total(r)));
    HeaderCarries(r, seed, "passed", Num(r.passCount));
    HeaderCarries(r, seed, "failed", Num(r.failCount));
    HeaderCarries(r, seed, "inconclusive", Num(r.inconclusiveCount));
    HeaderCarries(r, seed, "skipped", Num(r.skipCount));
    HeaderCarries(r, seed, "asserts", Num(r.assertCount));
    HeaderCarries(r, seed, "random-seed", Num(seed));
  }

  /** With Int32.MaxValue passes and one failure, `total` is Int32.MinValue. */
  lemma TotalWraps(r: TestResult, seed: Int32)
    requires r.passCount == 0x7FFF_FFFF && r.failCount == 1
    requires r.skipCount == 0 && r.inconclusiveCount == 0
    ensures Carries(HeaderAttributes(r, seed), "total", Num(-0x8000_0000))
  {
    assert Total(r) == Wrap32(0x8000_0000) == -0x8000_0000;
    CountValues(r, seed);
  }

  /** A `label` attribute is written if and only if the label is not empty,
      and then its value is the label. */
  lemma LabelIffNonEmpty(r: TestResult, seed: Int32)
    ensures ("label" in AttrNames(HeaderAttributes(r, seed))) <==> r.resultState.labelText != ""
    ensures r.resultState.labelText != "" ==> Attr("label", Str(r.resultState.labelText)) in HeaderAttributes(r, seed)
  {
    HeaderOrder(r, seed);
    if r.resultState.labelText != "" {
      assert HeaderAttributes(r, seed)[5] == OutcomeAttributes(r)[1];
    }
  }

  /** The names of the environment attributes for a platform, in order. */
  function EnvironmentNames(pf: Platform): seq<string> {
    ["nunit-version"] + RuntimeNames(pf) + LocationNames(pf) + ["culture", "uiculture"]
  }

  function RuntimeNames(pf: Platform): seq<string> {
    if !pf.netcore then ["clr-version", "os-version", "platform"] else []
  }

  function LocationNames(pf: Platform): seq<string> {
    if !pf.netcf
    then ["cwd"] + (if !pf.silverlight && !pf.netcore then ["machine-name", "user", "user-domain"] else [])
    else []
  }

  /** `environment` carries exactly the attributes EnvironmentNames lists, in that order. */
  lemma EnvironmentOrder(h: Host, pf: Platform)
    ensures AllAttrs(EnvironmentAttributes(h, pf))
    ensures AttrNames(EnvironmentAttributes(h, pf)) == EnvironmentNames(pf)
  {
    var first := [Attr("nunit-version", Str(h.nunitVersion))];
    var rt := RuntimeAttributes(h, pf);
    var loc := LocationAttributes(h, pf);
    var last := [Attr("culture", Str(h.culture)), Attr("uiculture", Str(h.uiCulture))];
    assert AttrNames(first) == ["nunit-version"];
    assert AttrNames(last) == ["culture", "uiculture"];
    RuntimeOrder(h, pf);
    LocationOrder(h, pf);
    AttrNamesConcat(first, rt);
    AttrNamesConcat(first + rt, loc);
    AttrNamesConcat(first + rt + loc, last);
  }

  lemma RuntimeOrder(h: Host, pf: Platform)
    ensures AllAttrs(RuntimeAttributes(h, pf))
    ensures AttrNames(RuntimeAttributes(h, pf)) == RuntimeNames(pf)
  {
  }

  lemma LocationOrder(h: Host, pf: Platform)
    ensures AllAttrs(LocationAttributes(h, pf))
    ensures AttrNames(LocationAttributes(h, pf)) == LocationNames(pf)
  {
    if !pf.netcf {
      var who := MachineAttributes(h, pf);
      assert AttrNames(who) == if !pf.silverlight && !pf.netcore then ["machine-name", "user", "user-domain"] else [];
      AttrNamesConcat([Attr("cwd", Str(h.currentDirectory))], who);
    }
  }

  /** Which environment attributes appear is decided by the platform:
      `nunit-version`, `culture` and `uiculture` always; `clr-version`,
      `os-version` and `platform` unless NETCORE; `cwd` unless NETCF;
      `machine-name`, `user` and `user-domain` unless NETCF, SILVERLIGHT or
      NETCORE. */
  lemma EnvironmentFlags(h: Host, pf: Platform)
    ensures var names := AttrNames(EnvironmentAttributes(h, pf));
            && "nunit-version" in names && "culture" in names && "uiculture" in names
            && ("clr-version" in names <==> !pf.netcore)
            && ("os-version" in names <==> !pf.netcore)
            && ("platform" in names <==> !pf.netcore)
            && ("cwd" in names <==> !pf.netcf)
            && ("machine-name" in names <==> !pf.netcf && !pf.silverlight && !pf.netcore)
            && ("user" in names <==> !pf.netcf && !pf.silverlight && !pf.netcore)
            && ("user-domain" in names <==> !pf.netcf && !pf.silverlight && !pf.netcore)
  {
    EnvironmentOrder(h, pf);
    AlwaysNames(pf);
    RuntimeNamesIff(pf);
    CwdNameIff(pf);
    IdentityNamesIff(pf);
  }

  lemma AlwaysNames(pf: Platform)
    ensures "nunit-version" in EnvironmentNames(pf)
    ensures "culture" in EnvironmentNames(pf) && "uiculture" in EnvironmentNames(pf)
  {
  }

  lemma RuntimeNamesIff(pf: Platform)
    ensures "clr-version" in EnvironmentNames(pf) <==> !pf.netcore
    ensures "os-version" in EnvironmentNames(pf) <==> !pf.netcore
    ensures "platform" in EnvironmentNames(pf) <==> !pf.netcore
  {
  }

  lemma CwdNameIff(pf: Platform)
    ensures "cwd" in EnvironmentNames(pf) <==> !pf.netcf
  {
  }

  lemma IdentityNamesIff(pf: Platform)
    ensures "machine-name" in EnvironmentNames(pf) <==> !pf.netcf && !pf.silverlight && !pf.netcore
    ensures "user" in EnvironmentNames(pf) <==> !pf.netcf && !pf.silverlight && !pf.netcore
    ensures "user-domain" in EnvironmentNames(pf) <==> !pf.netcf && !pf.silverlight && !pf.netcore
  {
  }

  /** No environment attribute name occurs twice, on any platform. */
  lemma EnvironmentNamesDistinct(pf: Platform)
    ensures Distinct(EnvironmentNames(pf))
  {
  }

  lemma EnvironmentCarries(h: Host, pf: Platform, n: string, v: Value)
    requires Attr(n, v) in EnvironmentAttributes(h, pf)
    ensures Carries(EnvironmentAttributes(h, pf), n, v)
  {
    EnvironmentOrder(h, pf);
    EnvironmentNamesDistinct(pf);
    DistinctCarries(EnvironmentAttributes(h, pf), n, v);
  }

  /** Every environment attribute that is written carries its host fact,
      and is the only attribute of that name. */
  lemma EnvironmentValues(h: Host, pf: Platform)
    ensures Carries(EnvironmentAttributes(h, pf), "nunit-version", Str(h.nunitVersion))
    ensures Carries(EnvironmentAttributes(h, pf), "culture", Str(h.culture))
    ensures Carries(EnvironmentAttributes(h, pf), "uiculture", Str(h.uiCulture))
    ensures !pf.netcore ==> Carries(EnvironmentAttributes(h, pf), "clr-version", Str(h.clrVersion))
    ensures !pf.netcore ==> Carries(EnvironmentAttributes(h, pf), "os-version", Str(h.osVersion))
    ensures !pf.netcore ==> Carries(EnvironmentAttributes(h, pf), "platform", Str(h.osPlatform))
    ensures !pf.netcf ==> Carries(EnvironmentAttributes(h, pf), "cwd", Str(h.currentDirectory))
    ensures (!pf.netcf && !pf.silverlight && !pf.netcore ==>
               Carries(EnvironmentAttributes(h, pf), "machine-name", Str(h.machineName)))
    ensures (!pf.netcf && !pf.silverlight && !pf.netcore ==>
               Carries(EnvironmentAttributes(h, pf), "user", Str(h.userName)))
    ensures (!pf.netcf && !pf.silverlight && !pf.netcore ==>
               Carries(EnvironmentAttributes(h, pf), "user-domain", Str(h.userDomainName)))
  {
    EnvironmentCarries(h, pf, "nunit-version", Str(h.nunitVersion));
    EnvironmentCarries(h, pf, "culture", Str(h.culture));
    EnvironmentCarries(h, pf, "uiculture", Str(h.uiCulture));
    if !pf.netcore {
      EnvironmentCarries(h, pf, "clr-version", Str(h.clrVersion));
      EnvironmentCarries(h, pf, "os-version", Str(h.osVersion));
      EnvironmentCarries(h, pf, "platform", Str(h.osPlatform));
    }
    if !pf.netcf {
      EnvironmentCarries(h, pf, "cwd", Str(h.currentDirectory));
      if !pf.silverlight && !pf.netcore {
        EnvironmentCarries(h, pf, "machine-name", Str(h.machineName));
        EnvironmentCarries(h, pf, "user", Str(h.userName));
        EnvironmentCarries(h, pf, "user-domain", Str(h.userDomainName));
      }
    }
  }

  /** The environment element is a balanced subtree of its own. */
  lemma EnvironmentBalanced(h: Host, pf: Platform)
    ensures Balanced(EnvironmentElement(h, pf))
  {
    var attrs := EnvironmentAttributes(h, pf);
    var env := EnvironmentElement(h, pf);
    EnvironmentOrder(h, pf);
    var open := WriterState(Started, [] + ["environment"], true);
    assert Run(TopLevel, [StartEl("environment")]) == Some(open) by {
      assert [StartEl("environment")][1..] == [];
    }
    RunAttrs(open, attrs);
    RunConcat(TopLevel, [StartEl("environment")], attrs);
    assert Run(open, [EndEl]) == Some(TopLevel) by {
      assert [EndEl][1..] == [];
      assert ([] + ["environment"])[..0] == [];
    }
    RunConcat(TopLevel, [StartEl("environment")] + attrs, [EndEl]);
    forall i | 0 <= i < |env| ensures IsContent(env[i]) {
      if 0 < i < |env| - 1 {
        assert env[i] == attrs[i - 1];
      }
    }
  }

  /** InitializeXmlFile leaves the writer inside `test-run`, with its start
      tag shut by the environment element. */
  lemma PrologueRun(r: TestResult, seed: Int32, h: Host, pf: Platform)
    ensures Run(Fresh, Prologue(r, seed, h, pf)) == Some(WriterState(Started, ["test-run"], false))
  {
    var pre := [StartDoc(false), StartEl("test-run")];
    var hdr := HeaderAttributes(r, seed);
    var inRun := WriterState(Started, ["test-run"], true);
    assert Run(Fresh, pre) == Some(inRun) by {
      assert pre[1..] == [StartEl("test-run")];
      assert pre[1..][1..] == [];
      assert [] + ["test-run"] == ["test-run"];
    }
    HeaderOrder(r, seed);
    RunAttrs(inRun, hdr);
    RunConcat(Fresh, pre, hdr);
    EnvironmentBalanced(h, pf);
    BalancedRun(Started, ["test-run"], true, EnvironmentElement(h, pf));
    RunConcat(Fresh, pre + hdr, EnvironmentElement(h, pf));
  }

  /** The prologue followed by the subtree leaves the writer where the
      prologue left it: inside `test-run`, no start tag open. */
  lemma BodyRun(r: TestResult, seed: Int32, h: Host, pf: Platform)
    requires Balanced(r.xml)
    ensures Run(Fresh, Prologue(r, seed, h, pf) + r.xml) == Some(WriterState(Started, ["test-run"], false))
  {
    PrologueRun(r, seed, h, pf);
    RunConcat(Fresh, Prologue(r, seed, h, pf), r.xml);
    if r.xml == [] {
      assert Run(WriterState(Started, ["test-run"], false), r.xml) == Some(WriterState(Started, ["test-run"], false));
    } else {
      BalancedRun(Started, ["test-run"], false, r.xml);
    }
  }

  /** Given a balanced subtree, the result document is well-formed: it opens
      with the declaration, every call it makes is one the writer accepts,
      every element (`test-run` last) is closed before EndDoc, and it ends
      with EndEl, EndDoc, Flush and Close. */
  lemma ResultDocumentWellFormed(r: TestResult, seed: Int32, h: Host, pf: Platform)
    requires Balanced(r.xml)
    ensures |ResultDocument(r, seed, h, pf)| >= 4
    ensures ResultDocument(r, seed, h, pf)[0] == StartDoc(false)
    ensures ResultDocument(r, seed, h, pf)[|ResultDocument(r, seed, h, pf)| - 4..] == [EndEl, EndDoc, Flush, Close]
    ensures Run(Fresh, ResultDocument(r, seed, h, pf)[..|ResultDocument(r, seed, h, pf)| - 3]) == Some(TopLevel)
    ensures Run(Fresh, ResultDocument(r, seed, h, pf)) == Some(WriterState(Closed, [], false))
  {
    var body := Prologue(r, seed, h, pf) + r.xml;
    var doc := ResultDocument(r, seed, h, pf);
    assert doc == body + Epilogue;
    assert doc[0] == body[0] == Prologue(r, seed, h, pf)[0];
    BodyRun(r, seed, h, pf);
    EpilogueRun();
    RunConcat(Fresh, body, [EndEl]);
    assert doc[..|doc| - 3] == body + [EndEl];
    RunConcat(Fresh, body, Epilogue);
  }

  /** TerminateXmlFile's calls, made inside `test-run`: its EndEl returns to
      the top level, and the rest ends and closes the writer. */
  lemma EpilogueRun()
    ensures Run(WriterState(Started, ["test-run"], false), [EndEl]) == Some(TopLevel)
    ensures Run(WriterState(Started, ["test-run"], false), Epilogue) == Some(WriterState(Closed, [], false))
  {
    assert ["test-run"][..0] == [];
    assert [EndEl][1..] == [];
    assert Epilogue[1..] == [EndDoc, Flush, Close];
    assert Epilogue[1..][1..] == [Flush, Close];
    assert Epilogue[1..][1..][1..] == [Close];
    assert Epilogue[1..][1..][1..][1..] == [];
  }

  /** `environment` is the first child of `test-run`: after the declaration
      `test-run` is opened, only its attributes follow, then the whole
      environment element, opened and closed, ends the prologue (and so comes
      before any event of the result subtree, by SubtreeContiguous). */
  lemma EnvironmentFirstChild(r: TestResult, seed: Int32, h: Host, pf: Platform)
    ensures |Prologue(r, seed, h, pf)| == 2 + |HeaderAttributes(r, seed)| + |EnvironmentElement(h, pf)|
    ensures Prologue(r, seed, h, pf)[0] == StartDoc(false)
    ensures Prologue(r, seed, h, pf)[1] == StartEl("test-run")
    ensures Prologue(r, seed, h, pf)[2..2 + |HeaderAttributes(r, seed)|] == HeaderAttributes(r, seed)
    ensures AllAttrs(HeaderAttributes(r, seed))
    ensures Prologue(r, seed, h, pf)[2 + |HeaderAttributes(r, seed)|..] == EnvironmentElement(h, pf)
    ensures EnvironmentElement(h, pf)[0] == StartEl("environment")
    ensures EnvironmentElement(h, pf)[|EnvironmentElement(h, pf)| - 1] == EndEl
    ensures Balanced(EnvironmentElement(h, pf))
  {
    var pre := [StartDoc(false), StartEl("test-run")];
    var hdr := HeaderAttributes(r, seed);
    var p := Prologue(r, seed, h, pf);
    assert p[..2 + |hdr|] == pre + hdr;
    assert (pre + hdr)[2..] == hdr;
    HeaderOrder(r, seed);
    EnvironmentBalanced(h, pf);
  }

  /** The result subtree is copied as it is, in one piece, as a child of
      `test-run`: right after the environment element's EndEl, right before
      the EndEl that closes `test-run`. */
  lemma SubtreeContiguous(r: TestResult, seed: Int32, h: Host, pf: Platform)
    requires Balanced(r.xml)
    ensures var doc := ResultDocument(r, seed, h, pf);
            var k := |Prologue(r, seed, h, pf)|;
            && k + |r.xml| < |doc|
            && doc[..k] == Prologue(r, seed, h, pf)
            && doc[k - 1] == EndEl
            && doc[k..k + |r.xml|] == r.xml
            && doc[k + |r.xml|] == EndEl
            && Run(Fresh, doc[..k]) == Some(WriterState(Started, ["test-run"], false))
            && Run(Fresh, doc[..k + |r.xml|]) == Some(WriterState(Started, ["test-run"], false))
  {
    var p := Prologue(r, seed, h, pf);
    var doc := ResultDocument(r, seed, h, pf);
    var k := |p|;
    assert doc == p + r.xml + Epilogue;
    assert doc[..k] == p;
    assert doc[..k + |r.xml|] == p + r.xml;
    assert doc[k - 1] == p[k - 1] == EnvironmentElement(h, pf)[|EnvironmentElement(h, pf)| - 1];
    PrologueRun(r, seed, h, pf);
    BodyRun(r, seed, h, pf);
  }

  /** WriteTestFile sends the test's subtree and the final Close, nothing
      more: no declaration, no `test-run`, no environment or summary; the
      writer accepts all of it. */
  lemma TestDocumentWellFormed(t: Test)
    requires Balanced(t.xml)
    ensures var doc := TestDocument(t);
            && doc[..|doc| - 1] == t.xml
            && doc[|doc| - 1] == Close
            && (forall i | 0 <= i < |doc| - 1 :: IsContent(doc[i]))
            && Run(Fresh, doc) == Some(WriterState(Closed, [], false))
  {
    var doc := TestDocument(t);
    assert doc[..|doc| - 1] == t.xml;
    RunConcat(Fresh, t.xml, [Close]);
    var st := if t.xml == [] then Fresh else TopLevel;
    if t.xml != [] {
      BalancedRun(Initial, [], false, t.xml);
    }
    assert Run(st, [Close]) == Some(WriterState(Closed, [], false)) by { assert [Close][1..] == []; }
  }

  // Proof helpers for the writer methods, not properties of the format:
  // what a run of writer calls appends, one event at a time, regrouped as
  // the document functions group it.

  lemma IdentityWritten(t: seq<Event>, r: TestResult)
    ensures t + [Attr("id", Str("2"))] + [Attr("name", Str(r.name))] + [Attr("fullname", Str(r.fullName))]
              + [Attr("testcasecount", Num(r.testCaseCount))]
            == t + IdentityAttributes(r)
  {
  }

  lemma OutcomeWritten(t: seq<Event>, r: TestResult)
    ensures r.resultState.labelText != "" ==>
              t + [Attr("result", Str(StatusName(r.resultState.status)))]
                + [Attr("label", Str(r.resultState.labelText))]
              == t + OutcomeAttributes(r)
    ensures r.resultState.labelText == "" ==>
              t + [Attr("result", Str(StatusName(r.resultState.status)))] == t + OutcomeAttributes(r)
  {
  }

  lemma TimesWritten(t: seq<Event>, r: TestResult)
    ensures t + [Attr("start-time", Str(r.startTime))] + [Attr("end-time", Str(r.endTime))]
              + [Attr("duration", Str(r.duration))]
            == t + TimeAttributes(r)
  {
  }

  lemma CountsWritten(t: seq<Event>, r: TestResult)
    ensures t + [Attr("total", Num(Wrap32(r.passCount + r.failCount + r.skipCount + r.inconclusiveCount)))]
              + [Attr("passed", Num(r.passCount))] + [Attr("failed", Num(r.failCount))]
              + [Attr("inconclusive", Num(r.inconclusiveCount))] + [Attr("skipped", Num(r.skipCount))]
              + [Attr("asserts", Num(r.assertCount))]
            == t + CountAttributes(r)
  {
  }

  lemma RuntimeWritten(t: seq<Event>, h: Host, pf: Platform)
    ensures !pf.netcore ==>
              t + [Attr("clr-version", Str(h.clrVersion))] + [Attr("os-version", Str(h.osVersion))]
                + [Attr("platform", Str(h.osPlatform))]
              == t + RuntimeAttributes(h, pf)
    ensures pf.netcore ==> t == t + RuntimeAttributes(h, pf)
  {
  }

  lemma LocationWritten(t: seq<Event>, h: Host, pf: Platform)
    ensures !pf.netcf && !pf.silverlight && !pf.netcore ==>
              t + [Attr("cwd", Str(h.currentDirectory))] + [Attr("machine-name", Str(h.machineName))]
                + [Attr("user", Str(h.userName))] + [Attr("user-domain", Str(h.userDomainName))]
              == t + LocationAttributes(h, pf)
    ensures !pf.netcf && (pf.silverlight || pf.netcore) ==>
              t + [Attr("cwd", Str(h.currentDirectory))] == t + LocationAttributes(h, pf)
    ensures pf.netcf ==> t == t + LocationAttributes(h, pf)
  {
  }

  /** Proof helper: the groups InitializeXmlFile writes, one after the other, make up the prologue. */
  lemma PrologueWritten(t: seq<Event>, r: TestResult, seed: Int32, h: Host, pf: Platform)
    ensures t + [StartDoc(false)] + [StartEl("test-run")] + IdentityAttributes(r) + OutcomeAttributes(r)
              + TimeAttributes(r) + CountAttributes(r) + [Attr("random-seed", Num(seed))]
              + EnvironmentElement(h, pf)
            == t + Prologue(r, seed, h, pf)
  {
    var pre := [StartDoc(false), StartEl("test-run")];
    var id, out, tm, ct := IdentityAttributes(r), OutcomeAttributes(r), TimeAttributes(r), CountAttributes(r);
    var sd, env := [Attr("random-seed", Num(seed))], EnvironmentElement(h, pf);
    assert t + [StartDoc(false)] + [StartEl("test-run")] == t + pre;
    AppendAssoc(t + pre, id, out);
    AppendAssoc(t + pre, id + out, tm);
    AppendAssoc(t + pre, id + out + tm, ct);
    AppendAssoc(t + pre, id + out + tm + ct, sd);
    AppendAssoc(t, pre, HeaderAttributes(r, seed));
    AppendAssoc(t, pre + HeaderAttributes(r, seed), env);
  }

  /** Proof helper: the groups WriteEnvironmentElement writes, one after the other, make up the element. */
  lemma EnvironmentWritten(t: seq<Event>, h: Host, pf: Platform)
    ensures t + [StartEl("environment")] + [Attr("nunit-version", Str(h.nunitVersion))]
              + RuntimeAttributes(h, pf) + LocationAttributes(h, pf)
              + [Attr("culture", Str(h.culture))] + [Attr("uiculture", Str(h.uiCulture))] + [EndEl]
            == t + EnvironmentElement(h, pf)
  {
    var nv, rt, loc := [Attr("nunit-version", Str(h.nunitVersion))], RuntimeAttributes(h, pf), LocationAttributes(h, pf);
    var cu := [Attr("culture", Str(h.culture)), Attr("uiculture", Str(h.uiCulture))];
    var s0 := t + [StartEl("environment")];
    assert s0 + nv + rt + loc + [Attr("culture", Str(h.culture))] + [Attr("uiculture", Str(h.uiCulture))]
        == s0 + nv + rt + loc + cu;
    AppendAssoc(s0, nv, rt);
    AppendAssoc(s0, nv + rt, loc);
    AppendAssoc(s0, nv + rt + loc, cu);
    AppendAssoc(t, [StartEl("environment")], EnvironmentAttributes(h, pf));
    AppendAssoc(t, [StartEl("environment")] + EnvironmentAttributes(h, pf), [EndEl]);
  }

  // ---------------------------------------------------------------------
  // The writer

  class NUnit3XmlOutputWriter {
    const platform: Platform
    var xmlWriter: XmlWriter?

    constructor (platform: Platform)
      ensures this.platform == platform && xmlWriter == null
    {
      this.platform := platform;
      xmlWriter := null;
    }

    /** Writes the test's own XML and nothing else; the `using` block's
        Dispose closes the writer. */
    method WriteTestFile(test: Test, writer: TextWriter)
      requires Balanced(test.xml)
      modifies writer
      ensures writer.text == old(writer.text) + TestDocument(test)
    {
      var w := new XmlWriter.Create(writer);
      w.WriteNode(test.xml);
      w.Close();
    }

    /** Writes the full result document. TerminateXmlFile has already closed
        the writer, so the `using` block's Dispose adds nothing. */
    method WriteResultFile(result: TestResult, writer: TextWriter, host: Host, initialSeed: Int32)
      requires Balanced(result.xml)
      modifies this, writer
      ensures writer.text == old(writer.text) + ResultDocument(result, initialSeed, host, platform)
      ensures xmlWriter != null && xmlWriter.output == writer
      ensures xmlWriter.State() == WriterState(Closed, [], false)
    {
      var w := new XmlWriter.Create(writer);
      WriteXmlResultOutput(result, w, host, initialSeed);
      w.Close();
    }

    method WriteXmlResultOutput(result: TestResult, w: XmlWriter, host: Host, initialSeed: Int32)
      requires w.Valid() && w.State() == Fresh && Balanced(result.xml)
      modifies this, w, w.output
      ensures xmlWriter == w && w.Valid() && w.State() == WriterState(Closed, [], false)
      ensures w.output.text == old(w.output.text) + ResultDocument(result, initialSeed, host, platform)
    {
      xmlWriter := w;
      ghost var t0 := w.output.text;
      ghost var p := Prologue(result, initialSeed, host, platform);
      InitializeXmlFile(result, host, initialSeed);
      w.WriteNode(result.xml);
      TerminateXmlFile();
      AppendAssoc(t0 + p, result.xml, Epilogue);
      AppendAssoc(t0, p, result.xml + Epilogue);
      AppendAssoc(p, result.xml, Epilogue);
    }

    method InitializeXmlFile(result: TestResult, host: Host, initialSeed: Int32)
      requires xmlWriter != null && xmlWriter.Valid() && xmlWriter.State() == Fresh
      modifies xmlWriter, xmlWriter.output
      ensures xmlWriter.Valid() && xmlWriter.State() == WriterState(Started, ["test-run"], false)
      ensures xmlWriter.output.text ==
                old(xmlWriter.output.text) + Prologue(result, initialSeed, host, platform)
    {
      var w := xmlWriter;
      ghost var t0 := w.output.text;
      w.WriteStartDocument(false);
      w.WriteStartElement("test-run");
      assert [] + ["test-run"] == ["test-run"];

      ghost var t1 := w.output.text;
      w.WriteAttributeString("id", Str("2"));
      w.WriteAttributeString("name", Str(result.name));
      w.WriteAttributeString("fullname", Str(result.fullName));
      w.WriteAttributeString("testcasecount", Num(result.testCaseCount));
      IdentityWritten(t1, result);

      WriteOutcomeAttributes(result);

      ghost var t3 := w.output.text;
      w.WriteAttributeString("start-time", Str(result.startTime));
      w.WriteAttributeString("end-time", Str(result.endTime));
      w.WriteAttributeString("duration", Str(result.duration));
      TimesWritten(t3, result);

      ghost var t4 := w.output.text;
      w.WriteAttributeString("total",
        Num(Wrap32(result.passCount + result.failCount + result.skipCount + result.inconclusiveCount)));
      w.WriteAttributeString("passed", Num(result.passCount));
      w.WriteAttributeString("failed", Num(result.failCount));
      w.WriteAttributeString("inconclusive", Num(result.inconclusiveCount));
      w.WriteAttributeString("skipped", Num(result.skipCount));
      w.WriteAttributeString("asserts", Num(result.assertCount));
      CountsWritten(t4, result);

      w.WriteAttributeString("random-seed", Num(initialSeed));

      WriteEnvironmentElement(host);
      PrologueWritten(t0, result, initialSeed, host, platform);
    }

    /** The `result` attribute and the conditional `label` of InitializeXmlFile. */
    method WriteOutcomeAttributes(result: TestResult)
      requires xmlWriter != null && xmlWriter.Valid() && xmlWriter.phase == Started && xmlWriter.inTag
      modifies xmlWriter, xmlWriter.output
      ensures xmlWriter.Valid() && xmlWriter.State() == old(xmlWriter.State())
      ensures xmlWriter.output.text == old(xmlWriter.output.text) + OutcomeAttributes(result)
    {
      var w := xmlWriter;
      OutcomeWritten(w.output.text, result);
      w.WriteAttributeString("result", Str(StatusName(result.resultState.status)));
      if result.resultState.labelText != "" {
        w.WriteAttributeString("label", Str(result.resultState.labelText));
      }
    }

    method WriteEnvironmentElement(host: Host)
      requires xmlWriter != null && xmlWriter.Valid()
      requires xmlWriter.phase == Started || xmlWriter.phase == Initial
      modifies xmlWriter, xmlWriter.output
      ensures xmlWriter.Valid()
      ensures xmlWriter.State() == WriterState(Started, old(xmlWriter.open), false)
      ensures xmlWriter.output.text == old(xmlWriter.output.text) + EnvironmentElement(host, platform)
    {
      var w := xmlWriter;
      ghost var open0 := w.open;
      ghost var t0 := w.output.text;
      w.WriteStartElement("environment");

      w.WriteAttributeString("nunit-version", Str(host.nunitVersion));
      WriteRuntimeAttributes(host);
      WriteLocationAttributes(host);
      w.WriteAttributeString("culture", Str(host.culture));
      w.WriteAttributeString("uiculture", Str(host.uiCulture));

      w.WriteEndElement();
      assert (open0 + ["environment"])[..|open0|] == open0;
      EnvironmentWritten(t0, host, platform);
    }

    /** The block WriteEnvironmentElement compiles in unless NETCORE. */
    method WriteRuntimeAttributes(host: Host)
      requires xmlWriter != null && xmlWriter.Valid() && xmlWriter.phase == Started && xmlWriter.inTag
      modifies xmlWriter, xmlWriter.output
      ensures xmlWriter.Valid() && xmlWriter.State() == old(xmlWriter.State())
      ensures xmlWriter.output.text == old(xmlWriter.output.text) + RuntimeAttributes(host, platform)
    {
      var w := xmlWriter;
      RuntimeWritten(w.output.text, host, platform);
      if !platform.netcore {
        w.WriteAttributeString("clr-version", Str(host.clrVersion));
        w.WriteAttributeString("os-version", Str(host.osVersion));
        w.WriteAttributeString("platform", Str(host.osPlatform));
      }
    }

    /** The block WriteEnvironmentElement compiles in unless NETCF, with the
        machine and user block inside it that is left out under SILVERLIGHT or NETCORE. */
    method WriteLocationAttributes(host: Host)
      requires xmlWriter != null && xmlWriter.Valid() && xmlWriter.phase == Started && xmlWriter.inTag
      modifies xmlWriter, xmlWriter.output
      ensures xmlWriter.Valid() && xmlWriter.State() == old(xmlWriter.State())
      ensures xmlWriter.output.text == old(xmlWriter.output.text) + LocationAttributes(host, platform)
    {
      var w := xmlWriter;
      LocationWritten(w.output.text, host, platform);
      if !platform.netcf {
        w.WriteAttributeString("cwd", Str(host.currentDirectory));
        if !platform.silverlight && !platform.netcore {
          w.WriteAttributeString("machine-name", Str(host.machineName));
          w.WriteAttributeString("user", Str(host.userName));
          w.WriteAttributeString("user-domain", Str(host.userDomainName));
        }
      }
    }

    /** Ends `test-run` and the document, then flushes and closes the writer
        (Close, or Dispose under NETCORE: the same call here). */
    method TerminateXmlFile()
      requires xmlWriter != null && xmlWriter.Valid()
      requires xmlWriter.State() == WriterState(Started, ["test-run"], false)
      modifies xmlWriter, xmlWriter.output
      ensures xmlWriter.Valid() && xmlWriter.State() == WriterState(Closed, [], false)
      ensures xmlWriter.output.text == old(xmlWriter.output.text) + Epilogue
    {
      var w := xmlWriter;
      w.WriteEndElement();
      w.WriteEndDocument();
      w.Flush();
      w.Close();
    }
  }
}
