/** `main()` of analyzer/stock_analyzer.py: the fixed order of report
    sections, the `has_any_valid_data` flag and the two AI gates. Fetching,
    the AI subprocess, the clock, the file write and the e-mail are inputs or
    outputs of the model: `run` receives what each call returned and yields
    the file it would write, the mail subject, the report text and the
    prompts it handed to the AI, in order. */
module StockAnalyzer {
  import opened Wrappers
  import opened Text
  import DataFetcher
  import AiAnalyzer
  import Cyclical
  import ReportGenerator

  /** `TARGETS`. */
  const Targets: seq<ReportGenerator.Target> := [
    ReportGenerator.Target("000300", "沪深300", "1.000300", "index"),
    ReportGenerator.Target("161725", "招商中证白酒指数", "0.161725", "fund"),
    ReportGenerator.Target("600036", "招商银行", "1.600036", "stock")
  ]

  const NoAiText := "*因数据获取失败，无法进行 AI 分析*"
  const NoSummaryText := "*因数据获取失败，无法进行综合总结*"
  const SummaryHeading := "## 五、市场综合总结"

  /** What the run's external calls return. `fetch` maps a target's secid
      to its three fetched values; `markers(i)` holds the two clock readings
      taken while the report of the `i`-th target is built; `industries` is
      what `analyze_cyclical_industries()` returned. */
  datatype Inputs = Inputs(
    fetch: string -> ReportGenerator.Fetched,
    markers: nat -> ReportGenerator.MarkerDays,
    sectors: Option<seq<DataFetcher.Sector>>,
    industries: Option<seq<Cyclical.Industry>>,
    oracle: AiAnalyzer.Oracle,
    render: ReportGenerator.Render)

  /** How a run ends: skipped on a non-trading day, crashed by an exception
      no one catches (nothing is saved or sent), or saved and mailed. */
  datatype Outcome =
    | Skipped
    | Crashed(reason: string)
    | Saved(file: string, subject: string, report: string, prompts: seq<string>)

  /** The parts one stretch of the loop adds, whether some target had data,
      and the prompts sent to the AI along the way. */
  datatype Sections = Sections(parts: seq<string>, anyValid: bool, prompts: seq<string>)

  function TitleParts(today: string): seq<string> {
    ["# 股票/基金智能分析报告 - " + today, "", "---", ""]
  }

  function AiHeading(name: string): string {
    "### AI 智能研判 (" + name + ")"
  }

  function Subject(today: string): string {
    "股票/基金智能分析报告 - " + today
  }

  /** The file `save_report` writes when given no file name. */
  function ReportFile(reportsDir: string, day: string): string {
    reportsDir + "/" + day + "_多标的分析报告.md"
  }

  function Footer(stamp: string): string {
    "\n\n---\n*数据来源: 东方财富 | 报告生成时间: " + stamp + "*\n"
  }

  /** The condition of line 58 on the fetched values. */
  predicate HasData(data: ReportGenerator.Fetched) {
    ReportGenerator.Present(data.history) || ReportGenerator.Present(data.flow)
  }

  /** The target report's text, when it could be built. */
  function TargetText(target: ReportGenerator.Target, data: ReportGenerator.Fetched, days: ReportGenerator.MarkerDays,
                      render: ReportGenerator.Render): Result<string>
  {
    var report :- ReportGenerator.TargetReport(target, data, days, render);
    Success(report.0)
  }

  /** One pass of the target loop (lines 52-70). The status test of line 58
      holds exactly when the fetched history or money flow is non-empty. */
  function TargetSection(target: ReportGenerator.Target, data: ReportGenerator.Fetched, days: ReportGenerator.MarkerDays,
                         oracle: AiAnalyzer.Oracle, render: ReportGenerator.Render): (r: Result<Sections>)
    ensures r.Failure? <==> TargetText(target, data, days, render).Failure?
    ensures r.Success? ==>
      var text := TargetText(target, data, days, render).value;
      var prompt := AiAnalyzer.TargetPrompt(target.name, text);
      r.value.anyValid == HasData(data)
      && r.value.parts == [text, AiHeading(target.name),
                           if HasData(data) then AiAnalyzer.CallAi(oracle(prompt)) else NoAiText,
                           "", "---"]
      && r.value.prompts == (if HasData(data) then [prompt] else [])
  {
    match ReportGenerator.TargetReport(target, data, days, render)
    case Failure(e) => Failure(e)
    case Success((text, status)) =>
      ReportGenerator.StatusMatchesTables(target, data, days, render);
      var valid := ReportGenerator.Present(status.history) || ReportGenerator.Present(status.flow);
      var prompt := AiAnalyzer.TargetPrompt(target.name, text);
      var ai := if valid then AiAnalyzer.CallAi(oracle(prompt)) else NoAiText;
      Success(Sections([text, AiHeading(target.name), ai, "", "---"], valid, if valid then [prompt] else []))
  }

  /** The pass for `target` with the run's inputs. */
  function SectionOf(target: ReportGenerator.Target, io: Inputs, days: ReportGenerator.MarkerDays): Result<Sections> {
    TargetSection(target, io.fetch(target.secid), days, io.oracle, io.render)
  }

  /** Every successful pass adds five parts. */
  predicate FiveParts(passes: seq<Result<Sections>>) {
    forall i | 0 <= i < |passes| :: passes[i].Success? ==> |passes[i].value.parts| == 5
  }

  /** The concatenation of a list of lists, in order. */
  function Flatten<T>(ss: seq<seq<T>>): seq<T> {
    if |ss| == 0 then [] else ss[0] + Flatten(ss[1..])
  }

  /** The prompts of each pass, in order (none for a pass that raised). */
  function PromptLists(passes: seq<Result<Sections>>): (ps: seq<seq<string>>)
    ensures |ps| == |passes|
    ensures forall i | 0 <= i < |passes| :: ps[i] == (if passes[i].Success? then passes[i].value.prompts else [])
  {
    seq(|passes|, i requires 0 <= i < |passes| => if passes[i].Success? then passes[i].value.prompts else [])
  }

  /** The loop of lines 52-70 over the passes, in order: it re-raises what
      the first raising pass raised; otherwise each pass's five parts land at
      its own offset, the flag is set when some pass set it, and the prompts
      are those of the passes, concatenated in order. */
  function Loop(passes: seq<Result<Sections>>): (r: Result<Sections>)
    requires FiveParts(passes)
    ensures r.Failure? <==> exists i | 0 <= i < |passes| :: passes[i].Failure?
    ensures r.Success? ==>
      |r.value.parts| == 5 * |passes|
      && forall i, k | 0 <= i < |passes| && 0 <= k < 5 :: r.value.parts[5 * i + k] == passes[i].value.parts[k]
    ensures r.Success? ==> (r.value.anyValid <==> exists i | 0 <= i < |passes| :: passes[i].value.anyValid)
    ensures r.Success? ==> r.value.prompts == Flatten(PromptLists(passes))
    decreases |passes|
  {
    if |passes| == 0 then Success(Sections([], false, []))
    else if passes[0].Failure? then Failure(passes[0].reason)
    else
      var rest := Loop(passes[1..]);
      assert forall i | 1 <= i < |passes| :: passes[i] == passes[1..][i - 1];
      if rest.Failure? then Failure(rest.reason)
      else
        PromptListsCons(passes);
        var first := passes[0].value;
        var r := Sections(first.parts + rest.value.parts, first.anyValid || rest.value.anyValid,
                          first.prompts + rest.value.prompts);
        assert forall m | 0 <= m < |rest.value.parts| :: r.parts[5 + m] == rest.value.parts[m];
        Success(r)
  }

  lemma PromptListsCons(passes: seq<Result<Sections>>)
    requires |passes| > 0 && passes[0].Success?
    ensures Flatten(PromptLists(passes)) == passes[0].value.prompts + Flatten(PromptLists(passes[1..]))
  {
    assert PromptLists(passes)[1..] == PromptLists(passes[1..]);
  }

  /** A raising loop re-raises what its first raising pass raised. */
  lemma {:induction false} LoopRaisesFirstFailure(passes: seq<Result<Sections>>)
    requires FiveParts(passes) && Loop(passes).Failure?
    ensures exists k | 0 <= k < |passes| ::
      passes[k].Failure? && Loop(passes).reason == passes[k].reason
      && forall j | 0 <= j < k :: passes[j].Success?
    decreases |passes|
  {
    if passes[0].Success? {
      var tail := passes[1..];
      assert FiveParts(tail) by {
        assert forall i | 0 <= i < |tail| :: tail[i] == passes[i + 1];
      }
      LoopRaisesFirstFailure(tail);
      var k :| 0 <= k < |tail| && tail[k].Failure? && Loop(tail).reason == tail[k].reason
               && forall j | 0 <= j < k :: tail[j].Success?;
      assert passes[k + 1] == tail[k];
      assert forall j | 1 <= j < k + 1 :: passes[j] == tail[j - 1];
    }
  }

  /** A value is in a concatenation exactly when it is in one of the lists. */
  lemma {:induction false} InFlatten<T>(ss: seq<seq<T>>, x: T)
    ensures x in Flatten(ss) <==> exists i | 0 <= i < |ss| :: x in ss[i]
    decreases |ss|
  {
    if |ss| > 0 {
      InFlatten(ss[1..], x);
      assert forall i | 1 <= i < |ss| :: ss[i] == ss[1..][i - 1];
      if x in Flatten(ss[1..]) {
        var i :| 0 <= i < |ss| - 1 && x in ss[1..][i];
        assert x in ss[i + 1];
      }
    }
  }

  /** The loop sends every prompt of every pass and nothing else. */
  lemma LoopPrompts(passes: seq<Result<Sections>>)
    requires FiveParts(passes) && Loop(passes).Success?
    ensures forall p | p in Loop(passes).value.prompts :: exists i | 0 <= i < |passes| :: p in passes[i].value.prompts
    ensures forall i, p | 0 <= i < |passes| && p in passes[i].value.prompts :: p in Loop(passes).value.prompts
  {
    var ps := PromptLists(passes);
    forall p | p in Loop(passes).value.prompts
      ensures exists i | 0 <= i < |passes| :: p in passes[i].value.prompts
    {
      InFlatten(ps, p);
    }
    forall i, p | 0 <= i < |passes| && p in passes[i].value.prompts
      ensures p in Loop(passes).value.prompts
    {
      InFlatten(ps, p);
      assert p in ps[i];
    }
  }

  /** The passes of the loop over `targets`. */
  function Passes(targets: seq<ReportGenerator.Target>, io: Inputs): (passes: seq<Result<Sections>>)
    ensures |passes| == |targets|
    ensures forall i | 0 <= i < |targets| :: passes[i] == SectionOf(targets[i], io, io.markers(i))
    ensures FiveParts(passes)
  {
    seq(|targets|, i requires 0 <= i < |targets| => SectionOf(targets[i], io, io.markers(i)))
  }

  /** The target loop of `main`. */
  function TargetSections(targets: seq<ReportGenerator.Target>, io: Inputs): Result<Sections> {
    Loop(Passes(targets, io))
  }

  /** The report parts up to and including the cyclical section, the flag,
      and the target prompts. */
  function PartsBeforeSummary(targets: seq<ReportGenerator.Target>, io: Inputs, today: string): (r: Result<Sections>)
  {
    var loop :- TargetSections(targets, io);
    var sector :- ReportGenerator.SectorReport(io.sectors, io.render);
    Success(Sections(TitleParts(today) + loop.parts
                     + [sector, ReportGenerator.CyclicalReport(io.industries)],
                     loop.anyValid, loop.prompts))
  }

  /** The summary of lines 83-89, given the parts gathered so far. */
  function Summary(before: Sections, oracle: AiAnalyzer.Oracle): (s: string)
  {
    if before.anyValid then AiAnalyzer.CallAi(oracle(AiAnalyzer.SummaryPrompt(Join(before.parts, "\n"))))
    else NoSummaryText
  }

  /** `main()`. `tradingDay` is what `is_trading_day()` returned; `today`,
      `stamp` and `fileDay` are the run's own readings of the clock (the
      report date, the footer time and the date `save_report` reads again
      for the file name), and `io.markers` the readings taken inside each
      target report; `reportsDir` is the configured report directory. */
  function Run(tradingDay: bool, today: string, stamp: string, fileDay: string, reportsDir: string, io: Inputs): (o: Outcome)
    ensures o.Skipped? <==> !tradingDay
    ensures o.Crashed? <==> tradingDay && PartsBeforeSummary(Targets, io, today).Failure?
    ensures o.Saved? ==> o.file == ReportFile(reportsDir, fileDay) && o.subject == Subject(today)
    ensures o.Saved? ==>
      var before := PartsBeforeSummary(Targets, io, today).value;
      var parts := before.parts + [SummaryHeading, Summary(before, io.oracle)];
      o.report == Join(parts, "\n") + Footer(stamp)
      && o.prompts == before.prompts
                      + (if before.anyValid then [AiAnalyzer.SummaryPrompt(Join(before.parts, "\n"))] else [])
  {
    if !tradingDay then Skipped
    else
      match PartsBeforeSummary(Targets, io, today)
      case Failure(e) => Crashed(e)
      case Success(before) =>
        var summary := Summary(before, io.oracle);
        var prompts := before.prompts
                       + (if before.anyValid then [AiAnalyzer.SummaryPrompt(Join(before.parts, "\n"))] else []);
        var parts := before.parts + [SummaryHeading, summary];
        Saved(ReportFile(reportsDir, fileDay), Subject(today), Join(parts, "\n") + Footer(stamp), prompts)
  }

  /** The provider's calendar check always answers yes, so the real entry
      point never skips. */
  lemma NeverSkipped(today: string, stamp: string, fileDay: string, reportsDir: string, io: Inputs)
    ensures !Run(DataFetcher.IsTradingDay(), today, stamp, fileDay, reportsDir, io).Skipped?
  {
  }

  /** Section order: the title block, five parts per target in `TARGETS`
      order, the sector section, the cyclical section, the summary heading
      and the summary. */
  lemma SectionOrder(targets: seq<ReportGenerator.Target>, io: Inputs, today: string)
    requires PartsBeforeSummary(targets, io, today).Success?
    ensures var before := PartsBeforeSummary(targets, io, today).value;
      var loop := TargetSections(targets, io).value;
      |before.parts| == 4 + 5 * |targets| + 2
      && before.parts[..4] == TitleParts(today)
      && before.parts[4..4 + 5 * |targets|] == loop.parts
      && before.parts[4 + 5 * |targets|] == ReportGenerator.SectorReport(io.sectors, io.render).value
      && before.parts[4 + 5 * |targets| + 1] == ReportGenerator.CyclicalReport(io.industries)
  {
    var before := PartsBeforeSummary(targets, io, today).value;
    var loop := TargetSections(targets, io).value;
    assert before.parts == TitleParts(today) + loop.parts
      + [ReportGenerator.SectorReport(io.sectors, io.render).value, ReportGenerator.CyclicalReport(io.industries)];
  }

  /** `has_any_valid_data` ends true exactly when some target fetched a
      non-empty history or money flow. */
  lemma AnyValidIffSomeData(targets: seq<ReportGenerator.Target>, io: Inputs, today: string)
    requires PartsBeforeSummary(targets, io, today).Success?
    ensures PartsBeforeSummary(targets, io, today).value.anyValid
        <==> exists i | 0 <= i < |targets| :: HasData(io.fetch(targets[i].secid))
  {
    var passes := Passes(targets, io);
    assert forall i | 0 <= i < |targets| ::
      passes[i].value.anyValid == HasData(io.fetch(targets[i].secid));
  }

  /** Lines 57-62 for the `i`-th target: the AI is asked about its report
      when it has data, and its AI text is the fixed placeholder otherwise. */
  lemma TargetAiGate(targets: seq<ReportGenerator.Target>, io: Inputs, i: nat)
    requires TargetSections(targets, io).Success?
    requires i < |targets|
    ensures var loop := TargetSections(targets, io).value;
      var data := io.fetch(targets[i].secid);
      var text := TargetText(targets[i], data, io.markers(i), io.render).value;
      var prompt := AiAnalyzer.TargetPrompt(targets[i].name, text);
      loop.parts[5 * i] == text
      && loop.parts[5 * i + 1] == AiHeading(targets[i].name)
      && loop.parts[5 * i + 2] == (if HasData(data) then AiAnalyzer.CallAi(io.oracle(prompt)) else NoAiText)
      && (HasData(data) ==> prompt in loop.prompts)
  {
    var passes := Passes(targets, io);
    var loop := TargetSections(targets, io).value;
    assert passes[i] == SectionOf(targets[i], io, io.markers(i));
    assert passes[i].Success?;
    var sec := passes[i].value;
    assert loop.parts[5 * i + 0] == sec.parts[0];
    assert loop.parts[5 * i + 1] == sec.parts[1];
    assert loop.parts[5 * i + 2] == sec.parts[2];
    if HasData(io.fetch(targets[i].secid)) {
      var prompt := AiAnalyzer.TargetPrompt(targets[i].name, TargetText(targets[i], io.fetch(targets[i].secid), io.markers(i), io.render).value);
      assert prompt in PromptLists(passes)[i];
      InFlatten(PromptLists(passes), prompt);
    }
  }

  /** No prompt the target loop sends opens like the summary prompt. */
  lemma LoopSendsNoSummary(targets: seq<ReportGenerator.Target>, io: Inputs)
    requires TargetSections(targets, io).Success?
    ensures forall p | p in TargetSections(targets, io).value.prompts ::
      !StartsWith(p, AiAnalyzer.SummaryOpening)
  {
    var passes := Passes(targets, io);
    forall i | 0 <= i < |passes| && passes[i].Success?
      ensures forall p | p in passes[i].value.prompts :: !StartsWith(p, AiAnalyzer.SummaryOpening)
    {
      SectionSendsNoSummary(targets[i], io.fetch(targets[i].secid), io.markers(i), io.oracle, io.render);
    }
    LoopPrompts(passes);
  }

  /** The prompt of one pass is a per-target prompt. */
  lemma SectionSendsNoSummary(target: ReportGenerator.Target, data: ReportGenerator.Fetched, days: ReportGenerator.MarkerDays,
                              oracle: AiAnalyzer.Oracle, render: ReportGenerator.Render)
    requires TargetSection(target, data, days, oracle, render).Success?
    ensures forall p | p in TargetSection(target, data, days, oracle, render).value.prompts ::
      !StartsWith(p, AiAnalyzer.SummaryOpening)
  {
    var text := TargetText(target, data, days, render).value;
    AiAnalyzer.TargetPromptIsNotSummary(target.name, text);
  }

  /** The summary AI is asked exactly when some target had data; otherwise
      the summary is the fixed placeholder. */
  lemma SummaryAskedIffData(tradingDay: bool, today: string, stamp: string, fileDay: string, reportsDir: string, io: Inputs)
    requires Run(tradingDay, today, stamp, fileDay, reportsDir, io).Saved?
    ensures var o := Run(tradingDay, today, stamp, fileDay, reportsDir, io);
      (exists p | p in o.prompts :: StartsWith(p, AiAnalyzer.SummaryOpening))
      <==> exists i | 0 <= i < |Targets| :: HasData(io.fetch(Targets[i].secid))
    ensures var before := PartsBeforeSummary(Targets, io, today).value;
      !before.anyValid ==> Summary(before, io.oracle) == NoSummaryText
  {
    var o := Run(tradingDay, today, stamp, fileDay, reportsDir, io);
    var before := PartsBeforeSummary(Targets, io, today).value;
    AnyValidIffSomeData(Targets, io, today);
    LoopSendsNoSummary(Targets, io);
    assert before.prompts == TargetSections(Targets, io).value.prompts;
    if before.anyValid {
      var s := AiAnalyzer.SummaryPrompt(Join(before.parts, "\n"));
      assert o.prompts == before.prompts + [s];
      assert s in o.prompts;
      assert s[..|AiAnalyzer.SummaryOpening|] == AiAnalyzer.SummaryOpening;
    } else {
      assert o.prompts == before.prompts;
    }
  }

  /** The summary prompt carries exactly the report as built before the
      summary heading, joined by newlines. */
  lemma SummarySeesEverythingBefore(tradingDay: bool, today: string, stamp: string, fileDay: string, reportsDir: string, io: Inputs)
    requires Run(tradingDay, today, stamp, fileDay, reportsDir, io).Saved?
    requires PartsBeforeSummary(Targets, io, today).value.anyValid
    ensures var o := Run(tradingDay, today, stamp, fileDay, reportsDir, io);
      var before := PartsBeforeSummary(Targets, io, today).value;
      o.prompts[|o.prompts| - 1] == AiAnalyzer.SummaryPrompt(Join(before.parts, "\n"))
      && Summary(before, io.oracle) == AiAnalyzer.CallAi(io.oracle(o.prompts[|o.prompts| - 1]))
  {
  }
}
