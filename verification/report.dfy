/** The Markdown section builders of analyzer/report_generator.py, over data
    fetched beforehand. The `get_*` calls inside the builders become inputs,
    each `datetime.now()` becomes a string of its own (a table's `today`,
    a target report's `MarkerDays`), and Python's `{x:.2f}` and
    `{v}` formatting are the abstract `Render` functions. A Python exception
    that escapes a builder is a `Failure`. */
module ReportGenerator {
  import opened Wrappers
  import opened Text
  import Json
  import DataFetcher
  import Sorting
  import Cyclical

  /** `format(x, '.2f')` of a number and `str(v)` of a decoded value. */
  datatype Render = Render(fixed2: real -> string, show: Json.Value -> string)

  /** One entry of `TARGETS`. */
  datatype Target = Target(code: string, name: string, secid: string, kind: string)

  /** What the three fetchers returned for one target. */
  datatype Fetched = Fetched(
    realtime: Option<DataFetcher.Quote>,
    history: Option<seq<DataFetcher.Bar>>,
    flow: Option<seq<DataFetcher.Flow>>)

  /** The status dict `{"history": ..., "money_flow": ...}`. */
  datatype Status = Status(history: Option<seq<DataFetcher.Bar>>, flow: Option<seq<DataFetcher.Flow>>)

  /** Python truthiness of a list that may be `None`. */
  predicate Present<T>(o: Option<seq<T>>) {
    o.Some? && |o.value| > 0
  }

  /** A line that is not a failure placeholder: empty or not opening with `*`. */
  predicate Plain(line: string) {
    line == [] || line[0] != '*'
  }

  const Yi: real := 100000000.0
  const TodayMarker := "[TODAY]"

  const RealtimeTitle := "### 实时行情"
  const RealtimeMissing := "*实时行情获取失败*"
  const HistoryTitle := "### 行情数据（最近3天）"
  const HistoryHeader := "| 日期 | 收盘价 | 涨跌幅 | 成交额(亿) | 振幅 |"
  const HistorySeparator := "|------|--------|" + "--------|------------|------|"
  const HistoryMissing := "*行情数据获取失败*"
  const FlowTitle := "### 资金流向（最近3天）"
  const FlowHeader := "| 日期 | 主力净流入(亿) | 超大单(亿) | 大单(亿) |"
  const FlowSeparator := "|------|----------------|" + "------------|----------|"
  const FlowMissing := "*资金流向获取失败*"

  // ---------------------------------------------------------------- table rows

  /** The date cell of a row: marked exactly when the row is today's. */
  function DateCell(date: string, today: string): (cell: string)
    ensures date == today ==> cell == TodayMarker + date
    ensures cell == date <==> date != today
  {
    if date == today then TodayMarker + date else date
  }

  function BarDate(b: DataFetcher.Bar): string {
    b.date
  }

  function FlowDate(f: DataFetcher.Flow): string {
    f.date
  }

  function HistoryRow(b: DataFetcher.Bar, today: string, render: Render): (row: string)
    ensures StartsWith(row, "| " + DateCell(b.date, today) + " | ")
    ensures Plain(row)
  {
    var head := "| " + DateCell(b.date, today) + " | ";
    assert head[0] == '|';
    assert (head + render.fixed2(b.close))[..|head|] == head;
    head + render.fixed2(b.close) + " | " + render.fixed2(b.changePct) + "% | "
    + render.fixed2(b.amount / Yi) + " | " + render.fixed2(b.amplitude) + "% |"
  }

  function FlowRow(f: DataFetcher.Flow, today: string, render: Render): (row: string)
    ensures StartsWith(row, "| " + DateCell(f.date, today) + " | ")
    ensures Plain(row)
  {
    var head := "| " + DateCell(f.date, today) + " | ";
    assert head[0] == '|';
    assert (head + render.fixed2(f.main / Yi))[..|head|] == head;
    head + render.fixed2(f.main / Yi) + " | "
    + render.fixed2(f.superLarge / Yi) + " | " + render.fixed2(f.large / Yi) + " |"
  }

  /** The history records in the order their rows are printed. */
  function HistoryOrder(bars: seq<DataFetcher.Bar>): (r: seq<DataFetcher.Bar>)
    ensures multiset(r) == multiset(bars)
    ensures Sorting.Descending(r, BarDate)
  {
    Sorting.NewestFirst(bars, BarDate)
  }

  /** The money-flow records in the order their rows are printed. */
  function FlowOrder(flows: seq<DataFetcher.Flow>): (r: seq<DataFetcher.Flow>)
    ensures multiset(r) == multiset(flows)
    ensures Sorting.Descending(r, FlowDate)
  {
    Sorting.NewestFirst(flows, FlowDate)
  }

  // ---------------------------------------------------------------- target blocks

  /** Lines 21-30: the realtime block. Dividing a non-numeric turnover by 1e8
      raises TypeError, which no caller catches. */
  function RealtimeBlock(realtime: Option<DataFetcher.Quote>, render: Render): (r: Result<seq<string>>)
    ensures r.Failure? <==> realtime.Some? && Json.AsNumber(realtime.value.amount).None?
    ensures realtime.None? ==> r == Success([RealtimeTitle, RealtimeMissing, ""])
    ensures r.Success? && realtime.Some? ==>
      var q := realtime.value;
      r.value == [RealtimeTitle,
                  "- **最新价**: " + render.fixed2(q.latest),
                  "- **涨跌幅**: " + render.fixed2(q.changePct) + "%",
                  "- **涨跌额**: " + render.fixed2(q.changeAmt),
                  "- **成交额**: " + render.fixed2(Json.AsNumber(q.amount).value / Yi) + " 亿",
                  ""]
  {
    match realtime
    case None => Success([RealtimeTitle, RealtimeMissing, ""])
    case Some(q) =>
      match Json.AsNumber(q.amount)
      case None => Failure("TypeError: unsupported operand type(s) for /")
      case Some(amount) =>
        Success([RealtimeTitle,
                 "- **最新价**: " + render.fixed2(q.latest),
                 "- **涨跌幅**: " + render.fixed2(q.changePct) + "%",
                 "- **涨跌额**: " + render.fixed2(q.changeAmt),
                 "- **成交额**: " + render.fixed2(amount / Yi) + " 亿",
                 ""])
  }

  function HistoryRows(bars: seq<DataFetcher.Bar>, today: string, render: Render): (rows: seq<string>)
    ensures |rows| == |bars| && forall i | 0 <= i < |bars| :: rows[i] == HistoryRow(bars[i], today, render)
  {
    seq(|bars|, i requires 0 <= i < |bars| => HistoryRow(bars[i], today, render))
  }

  function FlowRows(flows: seq<DataFetcher.Flow>, today: string, render: Render): (rows: seq<string>)
    ensures |rows| == |flows| && forall i | 0 <= i < |flows| :: rows[i] == FlowRow(flows[i], today, render)
  {
    seq(|flows|, i requires 0 <= i < |flows| => FlowRow(flows[i], today, render))
  }

  /** A Markdown table block: title, header, separator, the rows, a blank. */
  function Table(title: string, header: string, separator: string, rows: seq<string>): (lines: seq<string>)
    ensures |lines| == |rows| + 4
    ensures lines[0] == title && lines[1] == header && lines[2] == separator && lines[|lines| - 1] == ""
    ensures forall i | 0 <= i < |rows| :: lines[3 + i] == rows[i]
  {
    [title, header, separator] + rows + [""]
  }

  /** Lines 33-54: the history table, newest first, or its placeholder. */
  function HistoryBlock(history: Option<seq<DataFetcher.Bar>>, today: string, render: Render): (lines: seq<string>)
    ensures |lines| >= 3 && lines[0] == HistoryTitle && lines[|lines| - 1] == ""
    ensures !Present(history) ==> lines == [HistoryTitle, HistoryMissing, ""]
    ensures Present(history) ==>
      |lines| == |history.value| + 4 && lines[1] == HistoryHeader && lines[2] == HistorySeparator
      && forall i | 0 <= i < |history.value| ::
           lines[3 + i] == HistoryRow(HistoryOrder(history.value)[i], today, render)
  {
    if Present(history) then
      var bars := HistoryOrder(history.value);
      Table(HistoryTitle, HistoryHeader, HistorySeparator, HistoryRows(bars, today, render))
    else
      [HistoryTitle, HistoryMissing, ""]
  }

  /** Lines 57-78: the money-flow table, newest first, or its placeholder. */
  function FlowBlock(flow: Option<seq<DataFetcher.Flow>>, today: string, render: Render): (lines: seq<string>)
    ensures |lines| >= 3 && lines[0] == FlowTitle && lines[|lines| - 1] == ""
    ensures !Present(flow) ==> lines == [FlowTitle, FlowMissing, ""]
    ensures Present(flow) ==>
      |lines| == |flow.value| + 4 && lines[1] == FlowHeader && lines[2] == FlowSeparator
      && forall i | 0 <= i < |flow.value| ::
           lines[3 + i] == FlowRow(FlowOrder(flow.value)[i], today, render)
  {
    if Present(flow) then
      var flows := FlowOrder(flow.value);
      Table(FlowTitle, FlowHeader, FlowSeparator, FlowRows(flows, today, render))
    else
      [FlowTitle, FlowMissing, ""]
  }

  /** The realtime block carries its placeholder exactly when the quote is
      missing, and no other placeholder-like line. */
  lemma RealtimePlaceholder(realtime: Option<DataFetcher.Quote>, render: Render)
    requires RealtimeBlock(realtime, render).Success?
    ensures var rt := RealtimeBlock(realtime, render).value;
      (RealtimeMissing in rt <==> realtime.None?)
      && forall l | l in rt :: Plain(l) || l == RealtimeMissing
  {
    var rt := RealtimeBlock(realtime, render).value;
    if realtime.Some? {
      assert forall k | 0 <= k < |rt| :: rt[k] == [] || rt[k][0] == '#' || rt[k][0] == '-';
    }
  }

  /** A table whose title, header, separator and rows are plain has only
      plain lines. */
  lemma TablePlain(title: string, header: string, separator: string, rows: seq<string>)
    requires Plain(title) && Plain(header) && Plain(separator)
    requires forall i | 0 <= i < |rows| :: Plain(rows[i])
    ensures forall l | l in Table(title, header, separator, rows) :: Plain(l)
  {
    var t := Table(title, header, separator, rows);
    forall k | 0 <= k < |t|
      ensures Plain(t[k])
    {
      if 3 <= k < |t| - 1 {
        assert t[k] == rows[k - 3];
      }
    }
  }

  /** A non-plain line other than `own` is absent from lines that are all
      plain or `own`. */
  lemma Excluded(lines: seq<string>, own: string, m: string)
    requires forall l | l in lines :: Plain(l) || l == own
    requires !Plain(m) && m != own
    ensures m !in lines
  {
  }

  /** The history block carries its placeholder exactly when there are no
      records, and no other placeholder-like line. */
  lemma HistoryPlaceholder(history: Option<seq<DataFetcher.Bar>>, today: string, render: Render)
    ensures var h := HistoryBlock(history, today, render);
      (HistoryMissing in h <==> !Present(history))
      && forall l | l in h :: Plain(l) || l == HistoryMissing
  {
    var h := HistoryBlock(history, today, render);
    if Present(history) {
      var bars := HistoryOrder(history.value);
      var rows := HistoryRows(bars, today, render);
      assert HistoryHeader[0] == '|' && HistorySeparator[0] == '|' && HistoryTitle[0] == '#';
      TablePlain(HistoryTitle, HistoryHeader, HistorySeparator, rows);
      assert HistoryMissing[0] == '*';
      Excluded(h, "", HistoryMissing);
    } else {
      assert h == [HistoryTitle, HistoryMissing, ""];
      assert h[1] == HistoryMissing;
    }
  }

  /** The money-flow block carries its placeholder exactly when there are no
      records, and no other placeholder-like line. */
  lemma FlowPlaceholder(flow: Option<seq<DataFetcher.Flow>>, today: string, render: Render)
    ensures var f := FlowBlock(flow, today, render);
      (FlowMissing in f <==> !Present(flow))
      && forall l | l in f :: Plain(l) || l == FlowMissing
  {
    var f := FlowBlock(flow, today, render);
    if Present(flow) {
      var flows := FlowOrder(flow.value);
      var rows := FlowRows(flows, today, render);
      assert FlowHeader[0] == '|' && FlowSeparator[0] == '|' && FlowTitle[0] == '#';
      TablePlain(FlowTitle, FlowHeader, FlowSeparator, rows);
      assert FlowMissing[0] == '*';
      Excluded(f, "", FlowMissing);
    } else {
      assert f == [FlowTitle, FlowMissing, ""];
      assert f[1] == FlowMissing;
    }
  }

  /** `## [name (code)] 分析模块`. */
  function Heading(target: Target): string {
    "## [" + target.name + " (" + target.code + ")] 分析模块"
  }

  /** The two clock readings of `generate_target_report`: the day the
      history table marks with `[TODAY]` (line 38) and the day the
      money-flow table marks (line 62). */
  datatype MarkerDays = MarkerDays(history: string, flow: string)

  /** The lines of `generate_target_report`: heading, blank, then the
      realtime, history and money-flow blocks, each closed by a blank line. */
  function TargetLines(target: Target, data: Fetched, days: MarkerDays, render: Render): (r: Result<seq<string>>)
    ensures r.Failure? <==> RealtimeBlock(data.realtime, render).Failure?
    ensures r.Success? ==>
      r.value == [Heading(target), ""] + RealtimeBlock(data.realtime, render).value
                 + HistoryBlock(data.history, days.history, render) + FlowBlock(data.flow, days.flow, render)
  {
    var rt :- RealtimeBlock(data.realtime, render);
    Success([Heading(target), ""] + rt + HistoryBlock(data.history, days.history, render) + FlowBlock(data.flow, days.flow, render))
  }

  /** `generate_target_report(target)`: the report text and the status dict.
      The status holds the fetched lists themselves, sorted in place when
      they were rendered. */
  function TargetReport(target: Target, data: Fetched, days: MarkerDays, render: Render): (r: Result<(string, Status)>)
    ensures r.Failure? <==> TargetLines(target, data, days, render).Failure?
    ensures r.Success? ==> r.value.0 == Join(TargetLines(target, data, days, render).value, "\n")
    ensures r.Success? ==>
      r.value.1.history == (if Present(data.history) then Some(HistoryOrder(data.history.value)) else data.history)
      && r.value.1.flow == (if Present(data.flow) then Some(FlowOrder(data.flow.value)) else data.flow)
  {
    var lines :- TargetLines(target, data, days, render);
    var history := if Present(data.history) then Some(HistoryOrder(data.history.value)) else data.history;
    var flow := if Present(data.flow) then Some(FlowOrder(data.flow.value)) else data.flow;
    Success((Join(lines, "\n"), Status(history, flow)))
  }

  /** The status is truthy exactly when the matching table was rendered, and
      it holds exactly the fetched records. */
  lemma StatusMatchesTables(target: Target, data: Fetched, days: MarkerDays, render: Render)
    requires TargetReport(target, data, days, render).Success?
    ensures var st := TargetReport(target, data, days, render).value.1;
      (Present(st.history) <==> Present(data.history))
      && (Present(st.flow) <==> Present(data.flow))
      && (st.history.Some? ==> multiset(st.history.value) == multiset(data.history.value))
      && (st.flow.Some? ==> multiset(st.flow.value) == multiset(data.flow.value))
      && (Present(st.history) <==> HistoryMissing !in HistoryBlock(data.history, days.history, render))
      && (Present(st.flow) <==> FlowMissing !in FlowBlock(data.flow, days.flow, render))
  {
    HistoryPlaceholder(data.history, days.history, render);
    FlowPlaceholder(data.flow, days.flow, render);
  }

  /** In the whole target report each placeholder line appears exactly when
      its data is missing. */
  lemma TargetPlaceholders(target: Target, data: Fetched, days: MarkerDays, render: Render)
    requires TargetLines(target, data, days, render).Success?
    ensures var lines := TargetLines(target, data, days, render).value;
      (RealtimeMissing in lines <==> data.realtime.None?)
      && (HistoryMissing in lines <==> !Present(data.history))
      && (FlowMissing in lines <==> !Present(data.flow))
  {
    RealtimePlaceholder(data.realtime, render);
    HistoryPlaceholder(data.history, days.history, render);
    FlowPlaceholder(data.flow, days.flow, render);
    var head := [Heading(target), ""];
    var rt := RealtimeBlock(data.realtime, render).value;
    var h := HistoryBlock(data.history, days.history, render);
    var f := FlowBlock(data.flow, days.flow, render);
    assert Heading(target)[0] == '#';
    assert forall l | l in head :: Plain(l);
    MarkersDistinct();
    Excluded(head, "", RealtimeMissing);
    Excluded(head, "", HistoryMissing);
    Excluded(head, "", FlowMissing);
    Excluded(h, HistoryMissing, RealtimeMissing);
    Excluded(f, FlowMissing, RealtimeMissing);
    Excluded(rt, RealtimeMissing, HistoryMissing);
    Excluded(f, FlowMissing, HistoryMissing);
    Excluded(rt, RealtimeMissing, FlowMissing);
    Excluded(h, HistoryMissing, FlowMissing);
    assert TargetLines(target, data, days, render).value == head + rt + h + f;
    InFour(head, rt, h, f, RealtimeMissing);
    InFour(head, rt, h, f, HistoryMissing);
    InFour(head, rt, h, f, FlowMissing);
  }

  /** The three placeholders are placeholders, and pairwise different. */
  lemma MarkersDistinct()
    ensures !Plain(RealtimeMissing) && !Plain(HistoryMissing) && !Plain(FlowMissing)
    ensures RealtimeMissing != HistoryMissing && RealtimeMissing != FlowMissing && HistoryMissing != FlowMissing
  {
    assert RealtimeMissing[0] == '*' && HistoryMissing[0] == '*' && FlowMissing[0] == '*';
    assert RealtimeMissing[1] == '实' && HistoryMissing[1] == '行' && FlowMissing[1] == '资';
  }

  lemma InFour(a: seq<string>, b: seq<string>, c: seq<string>, d: seq<string>, m: string)
    ensures m in a + b + c + d <==> m in a || m in b || m in c || m in d
  {
  }

  // ---------------------------------------------------------------- sector report

  const SectorHeading := "## 热门板块分析"
  const SectorTitle := "### 当前热门板块 TOP 5"
  const SectorHeader := "| 板块名称 | 涨跌幅 | 资金净流入(亿) |"
  const SectorSeparator := "|---------|--------|-------------|"
  const SectorMissing := "*热门板块数据获取失败*"

  /** One sector row; `:.2f` on a value that is not a number raises. */
  function SectorRow(s: DataFetcher.Sector, render: Render): (r: Result<string>)
    ensures r.Success? <==> Json.AsNumber(s.changePercent).Some? && Json.AsNumber(s.netFlow).Some?
    ensures r.Success? ==>
      r.value == "| " + render.show(s.name) + " | " + render.fixed2(Json.AsNumber(s.changePercent).value)
                 + "% | " + render.fixed2(Json.AsNumber(s.netFlow).value) + " |"
  {
    match (Json.AsNumber(s.changePercent), Json.AsNumber(s.netFlow))
    case (Some(cp), Some(nf)) =>
      Success("| " + render.show(s.name) + " | " + render.fixed2(cp) + "% | " + render.fixed2(nf) + " |")
    case _ => Failure("ValueError: format code 'f' needs a number")
  }

  /** The `for sector in sectors` loop: one row per sector, in order, unless
      some sector's numbers cannot be formatted. */
  function SectorRows(sectors: seq<DataFetcher.Sector>, render: Render): (r: Result<seq<string>>)
    ensures r.Success? <==> forall i | 0 <= i < |sectors| :: SectorRow(sectors[i], render).Success?
    ensures r.Success? ==>
      |r.value| == |sectors| && forall i | 0 <= i < |sectors| :: r.value[i] == SectorRow(sectors[i], render).value
  {
    if |sectors| == 0 then Success([])
    else
      match SectorRow(sectors[0], render)
      case Failure(e) => Failure(e)
      case Success(row) =>
        match SectorRows(sectors[1..], render)
        case Failure(e) =>
          assert forall i | 1 <= i < |sectors| :: sectors[i] == sectors[1..][i - 1];
          Failure(e)
        case Success(rows) =>
          Success([row] + rows)
  }

  /** The lines of `generate_sector_report`. */
  function SectorLines(sectors: Option<seq<DataFetcher.Sector>>, render: Render): (r: Result<seq<string>>)
    ensures !Present(sectors) ==> r == Success([SectorHeading, "", SectorMissing, ""])
    ensures Present(sectors) ==>
      (r.Success? <==> SectorRows(sectors.value, render).Success?)
      && (r.Success? ==>
            r.value == [SectorHeading, "", SectorTitle, SectorHeader, SectorSeparator]
                       + SectorRows(sectors.value, render).value + [""])
  {
    if Present(sectors) then
      var rows :- SectorRows(sectors.value, render);
      Success([SectorHeading, "", SectorTitle, SectorHeader, SectorSeparator] + rows + [""])
    else
      Success([SectorHeading, "", SectorMissing, ""])
  }

  /** `generate_sector_report()` on the fetched sectors. */
  function SectorReport(sectors: Option<seq<DataFetcher.Sector>>, render: Render): (r: Result<string>)
    ensures r.Success? <==> SectorLines(sectors, render).Success?
    ensures r.Success? ==> StartsWith(r.value, SectorHeading)
    ensures r.Success? && SingleLines(SectorLines(sectors, render).value) ==>
              Split(r.value, '\n') == SectorLines(sectors, render).value
  {
    var lines :- SectorLines(sectors, render);
    JoinLines(lines);
    JoinStartsWithFirst(lines, "\n");
    Success(Join(lines, "\n"))
  }

  /** One table row per sector, in input order, exactly when there are
      sectors; the placeholder otherwise. */
  lemma SectorTableShape(sectors: Option<seq<DataFetcher.Sector>>, render: Render)
    requires SectorLines(sectors, render).Success?
    ensures var lines := SectorLines(sectors, render).value;
      (SectorMissing in lines <==> !Present(sectors))
      && (Present(sectors) ==>
            (|lines| == |sectors.value| + 6
             && forall i | 0 <= i < |sectors.value| ::
                  lines[5 + i] == SectorRow(sectors.value[i], render).value && lines[5 + i][0] == '|'))
  {
    var lines := SectorLines(sectors, render).value;
    if Present(sectors) {
      var rows := SectorRows(sectors.value, render).value;
      forall i | 0 <= i < |sectors.value|
        ensures lines[5 + i] == rows[i] && lines[5 + i][0] == '|'
      {
        assert lines[5 + i] == rows[i];
      }
      forall k | 0 <= k < |lines|
        ensures lines[k] != SectorMissing
      {
        if 5 <= k < |lines| - 1 {
          assert lines[k][0] == '|';
        }
      }
    }
  }

  /** No line holds a newline, so joining the lines with newlines keeps
      them apart. */
  predicate SingleLines(lines: seq<string>) {
    forall i | 0 <= i < |lines| :: '\n' !in lines[i]
  }

  // ---------------------------------------------------------------- cyclical report

  const CyclicalHeading := "## 周期性行业分析"
  const CyclicalMissing := "*周期性行业分析失败*"

  /** `<img ...>` embedding an industry's chart. */
  function ChartImage(name: string, chart: string): string {
    "<img src=\"data:image/png;base64," + chart + "\" alt=\"" + name + "行业周期位置图\" width=\"400\" height=\"250\">"
  }

  predicate HasChart(ind: Cyclical.Industry) {
    ind.chart.Some? && |ind.chart.value| > 0
  }

  /** The `### name 行业` heading of an industry block. */
  function IndustryHeading(name: string): string {
    "### " + name + " 行业"
  }

  /** Lines 115-128: heading, the chart when there is one, then phase,
      duration, position and analysis, and a blank line. */
  function IndustryBlock(ind: Cyclical.Industry): (lines: seq<string>)
    ensures |lines| == (if HasChart(ind) then 8 else 6)
    ensures lines[0] == IndustryHeading(ind.name)
    ensures HasChart(ind) ==> lines[1] == ChartImage(ind.name, ind.chart.value) && lines[2] == ""
    ensures lines[|lines| - 5..] == ["- **当前周期**: " + ind.fields.phase,
                                    "- **持续时间**: " + ind.fields.duration,
                                    "- **周期位置**: " + ind.fields.position,
                                    "- **分析**: " + ind.fields.analysis,
                                    ""]
  {
    [IndustryHeading(ind.name)]
    + (if HasChart(ind) then [ChartImage(ind.name, ind.chart.value), ""] else [])
    + ["- **当前周期**: " + ind.fields.phase,
       "- **持续时间**: " + ind.fields.duration,
       "- **周期位置**: " + ind.fields.position,
       "- **分析**: " + ind.fields.analysis,
       ""]
  }

  /** The headings the cyclical section should carry: one per industry, in
      input order. */
  function IndustryHeadings(inds: seq<Cyclical.Industry>): (h: seq<string>)
    ensures |h| == |inds| && forall i | 0 <= i < |inds| :: h[i] == IndustryHeading(inds[i].name)
  {
    seq(|inds|, i requires 0 <= i < |inds| => IndustryHeading(inds[i].name))
  }

  /** The blocks of all industries, in order: their `### ` lines are exactly
      the industry headings, one per industry. */
  function IndustryBlocks(inds: seq<Cyclical.Industry>): (lines: seq<string>)
    ensures Headings(lines) == IndustryHeadings(inds)
    decreases |inds|
  {
    if |inds| == 0 then []
    else
      var block, rest := IndustryBlock(inds[0]), IndustryBlocks(inds[1..]);
      IndustryBlockHeadings(inds[0]);
      HeadingsConcat(block, rest);
      HeadingsCons(inds);
      block + rest
  }

  lemma HeadingsCons(inds: seq<Cyclical.Industry>)
    requires |inds| > 0
    ensures IndustryHeadings(inds) == [IndustryHeading(inds[0].name)] + IndustryHeadings(inds[1..])
  {
    var h, t := IndustryHeadings(inds), IndustryHeadings(inds[1..]);
    assert forall i | 0 <= i < |t| :: h[i + 1] == t[i];
  }

  /** The lines of `generate_cyclical_industry_report`. */
  function CyclicalLines(industries: Option<seq<Cyclical.Industry>>): (lines: seq<string>)
    ensures |lines| >= 3 && lines[..2] == [CyclicalHeading, ""] && lines[|lines| - 1] == ""
    ensures !Present(industries) ==> lines == [CyclicalHeading, "", CyclicalMissing, ""]
    ensures Present(industries) ==> lines == [CyclicalHeading, ""] + IndustryBlocks(industries.value) + [""]
  {
    if Present(industries) then [CyclicalHeading, ""] + IndustryBlocks(industries.value) + [""]
    else [CyclicalHeading, "", CyclicalMissing, ""]
  }

  function CyclicalReport(industries: Option<seq<Cyclical.Industry>>): (text: string)
    ensures StartsWith(text, CyclicalHeading)
    ensures SingleLines(CyclicalLines(industries)) ==> Split(text, '\n') == CyclicalLines(industries)
  {
    var lines := CyclicalLines(industries);
    JoinLines(lines);
    JoinStartsWithFirst(lines, "\n");
    Join(lines, "\n")
  }

  /** The `### ` heading lines, in order. */
  function Headings(lines: seq<string>): (h: seq<string>)
    ensures |h| <= |lines|
  {
    if |lines| == 0 then []
    else (if StartsWith(lines[0], "### ") then [lines[0]] else []) + Headings(lines[1..])
  }

  lemma {:induction false} HeadingsConcat(a: seq<string>, b: seq<string>)
    ensures Headings(a + b) == Headings(a) + Headings(b)
    decreases |a|
  {
    if |a| == 0 {
      assert a + b == b;
    } else {
      assert (a + b)[1..] == a[1..] + b;
      HeadingsConcat(a[1..], b);
    }
  }

  /** Each industry block has exactly one heading line: its own. */
  lemma IndustryBlockHeadings(ind: Cyclical.Industry)
    ensures Headings(IndustryBlock(ind)) == [IndustryHeading(ind.name)]
  {
    var lines := IndustryBlock(ind);
    assert StartsWith(lines[0], "### ") by { assert lines[0][..4] == "### "; }
    var tail := lines[1..];
    assert forall k | 0 <= k < |tail| :: tail[k] == [] || tail[k][0] == '<' || tail[k][0] == '-';
    NoHeadings(tail);
    assert lines == [lines[0]] + tail;
    HeadingsConcat([lines[0]], tail);
  }

  lemma {:induction false} NoHeadings(lines: seq<string>)
    requires forall k | 0 <= k < |lines| :: lines[k] == [] || lines[k][0] != '#'
    ensures Headings(lines) == []
    decreases |lines|
  {
    if |lines| > 0 {
      NoHeadings(lines[1..]);
    }
  }

  /** The cyclical section's `### ` lines are `### <name> 行业` for each
      industry in input order, or there are none and the placeholder stands
      in when there is no industry. */
  lemma {:induction false} CyclicalHeadings(industries: Option<seq<Cyclical.Industry>>)
    ensures Headings(CyclicalLines(industries)) == (if Present(industries) then IndustryHeadings(industries.value) else [])
    ensures CyclicalMissing in CyclicalLines(industries) <==> !Present(industries)
  {
    if Present(industries) {
      SectionHeadings(industries.value);
      SectionWithoutPlaceholder(industries.value);
    } else {
      MissingSectionHeadings();
    }
  }

  lemma SectionHeadings(inds: seq<Cyclical.Industry>)
    ensures Headings([CyclicalHeading, ""] + IndustryBlocks(inds) + [""]) == IndustryHeadings(inds)
  {
    var blocks := IndustryBlocks(inds);
    HeadingsConcat([CyclicalHeading, ""], blocks);
    HeadingsConcat([CyclicalHeading, ""] + blocks, [""]);
    NoHeadingsPrefix();
    assert Headings([""]) == [] by { assert [""][1..] == []; }
  }

  lemma SectionWithoutPlaceholder(inds: seq<Cyclical.Industry>)
    ensures CyclicalMissing !in [CyclicalHeading, ""] + IndustryBlocks(inds) + [""]
  {
    var blocks := IndustryBlocks(inds);
    BlocksPlain(inds);
    assert CyclicalMissing !in blocks;
    assert CyclicalMissing != CyclicalHeading by { assert CyclicalMissing[0] != CyclicalHeading[0]; }
    assert forall l :: l in [CyclicalHeading, ""] + blocks + [""] <==> l in [CyclicalHeading, ""] || l in blocks || l == "";
  }

  lemma MissingSectionHeadings()
    ensures Headings([CyclicalHeading, "", CyclicalMissing, ""]) == []
  {
    NoHeadings([CyclicalHeading, "", CyclicalMissing, ""][2..]);
    NoHeadingsPrefix();
    HeadingsConcat([CyclicalHeading, ""], [CyclicalMissing, ""]);
    assert [CyclicalHeading, ""] + [CyclicalMissing, ""] == [CyclicalHeading, "", CyclicalMissing, ""];
  }

  lemma NoHeadingsPrefix()
    ensures Headings([CyclicalHeading, ""]) == []
  {
    assert CyclicalHeading[..4] != "### " by { assert CyclicalHeading[2] == ' '; }
    assert [CyclicalHeading, ""][1..] == [""];
    assert Headings([""]) == [] by { assert [""][1..] == []; }
  }

  lemma IndustryBlockPlain(ind: Cyclical.Industry)
    ensures forall l | l in IndustryBlock(ind) :: Plain(l)
  {
    var b := IndustryBlock(ind);
    assert forall k | 0 <= k < |b| :: b[k] == [] || b[k][0] == '#' || b[k][0] == '<' || b[k][0] == '-';
  }

  lemma {:induction false} BlocksPlain(inds: seq<Cyclical.Industry>)
    ensures forall l | l in IndustryBlocks(inds) :: Plain(l)
    decreases |inds|
  {
    if |inds| > 0 {
      BlocksPlain(inds[1..]);
      IndustryBlockPlain(inds[0]);
      var a, b := IndustryBlock(inds[0]), IndustryBlocks(inds[1..]);
      assert forall l :: l in a + b <==> l in a || l in b;
    }
  }
}
