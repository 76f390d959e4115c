/** The Hang Seng Tech index analyser (analyzer/hstech_analyzer.py): the
    kline fetch with its bounded retry, the technical indicators over the bar
    series, the AI-or-rule-based analysis, and the two facade entry points.
    HTTP is not modelled: attempt `a` of a request for `lmt` klines yields
    `respond(lmt, a)`, the decoded response or `None` when the request raised.
    Charts, logging and `time.sleep` are left out. */
module Hstech {
  import opened Wrappers
  import opened Text
  import Json
  import DataFetcher
  import AiAnalyzer

  /** One daily bar of the index, with its date kept as text. */
  datatype HBar = HBar(date: string, open: real, close: real, high: real, low: real, volume: real, amount: real)

  /** The quote fields the analysis reads (`最新价`, `涨跌幅`, `今开`, `最高`,
      `最低`, `昨收`). */
  datatype HQuote = HQuote(name: string, latest: real, changePct: real, open: real, high: real, low: real, prevClose: real)

  /** The three indicators; `ma250` is `None` where pandas yields NaN. */
  datatype Indicators = Indicators(ma250: Option<real>, recentHigh: real, recentLow: real)

  /** The result of `generate_full_report` without its chart and timestamp. */
  datatype FullReport = FullReport(realtime: HQuote, history: seq<HBar>, indicators: Indicators, analysis: string)

  /** The integer levels of the rule-based analysis. */
  datatype Levels = Levels(aggressiveLow: int, aggressiveHigh: int, steady: int, stopLoss: int, platform: int)

  /** Python's `:.2f`, `:+.2f` and `:.0f` on a finite float. */
  datatype Format = Format(fixed2: real -> string, signed2: real -> string, fixed0: real -> string)

  /** Attempt `a` (from 0) of the kline request asking for `lmt` klines. */
  type Responder = (int, nat) -> Option<Json.Value>

  const MaxRetries: nat := 3
  const Window: nat := 20
  const MaPeriod: nat := 250
  const IndexName := "恒生科技指数"
  const NoRealtimeText := "无法获取实时行情数据"
  const NoHistoryText := "无法获取历史数据"
  const NoDataText := "无法获取任何数据"

  // ---------------------------------------------------------------- realtime quote

  /** `get_realtime_data()` on the decoded response: the price fields of
      `data["data"]` divided by 100, a missing one counting as 0. A non-numeric
      field (including `f171`, which the analysis does not read) raises and
      gives `None`. */
  function GetRealtimeData(resp: Option<Json.Value>): (r: Option<HQuote>)
    ensures r.Some? ==> resp.Some? && Json.TruthyMember(resp.value, "data").Some?
    ensures r.Some? ==>
      var d := Json.TruthyMember(resp.value, "data").value;
      d.Obj?
      && r.value.name == IndexName
      && Some(r.value.latest) == DataFetcher.Scaled(d.fields, "f43", 100.0)
      && Some(r.value.changePct) == DataFetcher.Scaled(d.fields, "f170", 100.0)
      && DataFetcher.Scaled(d.fields, "f171", 100.0).Some?
      && Some(r.value.open) == DataFetcher.Scaled(d.fields, "f46", 100.0)
      && Some(r.value.high) == DataFetcher.Scaled(d.fields, "f44", 100.0)
      && Some(r.value.low) == DataFetcher.Scaled(d.fields, "f45", 100.0)
      && Some(r.value.prevClose) == DataFetcher.Scaled(d.fields, "f60", 100.0)
    ensures resp.Some? && Json.TruthyMember(resp.value, "data").None? ==> r.None?
    ensures r.Some? <==>
      resp.Some? && Json.TruthyMember(resp.value, "data").Some?
      && var d := Json.TruthyMember(resp.value, "data").value;
        d.Obj? && DataFetcher.QuoteFieldsScale(d.fields)
  {
    if resp.None? then None
    else
      match Json.TruthyMember(resp.value, "data")
      case None => None
      case Some(d) =>
        if !d.Obj? then None
        else
          var m := d.fields;
          var latest :- DataFetcher.Scaled(m, "f43", 100.0);
          var changePct :- DataFetcher.Scaled(m, "f170", 100.0);
          var changeAmt :- DataFetcher.Scaled(m, "f171", 100.0);
          var open :- DataFetcher.Scaled(m, "f46", 100.0);
          var high :- DataFetcher.Scaled(m, "f44", 100.0);
          var low :- DataFetcher.Scaled(m, "f45", 100.0);
          var prevClose :- DataFetcher.Scaled(m, "f60", 100.0);
          Some(HQuote(IndexName, latest, changePct, open, high, low, prevClose))
  }

  // ---------------------------------------------------------------- kline fetch with retry

  /** Parses one kline line `date,open,close,high,low,volume,amount,...`:
      fewer than seven fields is an IndexError, an unparseable number a
      ValueError, and either gives `None`. */
  function ParseHBar(line: string, num: DataFetcher.NumberParser): (r: Option<HBar>)
    ensures var p := Split(line, ',');
      r.Some? <==> |p| >= 7 && forall k | 1 <= k <= 6 :: num(p[k]).Some?
    ensures var p := Split(line, ',');
      r.Some? ==> (|p| >= 7 && r.value.date == p[0]
        && Some(r.value.open) == num(p[1]) && Some(r.value.close) == num(p[2])
        && Some(r.value.high) == num(p[3]) && Some(r.value.low) == num(p[4])
        && Some(r.value.volume) == num(p[5]) && Some(r.value.amount) == num(p[6]))
  {
    HBarOfFields(Split(line, ','), num)
  }

  /** The bar of an already split kline line. */
  function HBarOfFields(p: seq<string>, num: DataFetcher.NumberParser): (r: Option<HBar>)
    ensures r.Some? <==> |p| >= 7 && forall k | 1 <= k <= 6 :: num(p[k]).Some?
    ensures r.Some? ==> (|p| >= 7 && r.value.date == p[0]
        && Some(r.value.open) == num(p[1]) && Some(r.value.close) == num(p[2])
        && Some(r.value.high) == num(p[3]) && Some(r.value.low) == num(p[4])
        && Some(r.value.volume) == num(p[5]) && Some(r.value.amount) == num(p[6]))
  {
    if |p| < 7 then None
    else
      var open :- num(p[1]);
      var close :- num(p[2]);
      var high :- num(p[3]);
      var low :- num(p[4]);
      var volume :- num(p[5]);
      var amount :- num(p[6]);
      Some(HBar(p[0], open, close, high, low, volume, amount))
  }

  /** The frame one attempt builds: every kline when the guard
      `data.get("data") and data["data"].get("klines")` passes and every line
      parses; `None` when the guard fails or anything raises. No kline is
      dropped: the request asks for more than needed and all are kept. */
  function Frame(resp: Option<Json.Value>, num: DataFetcher.NumberParser): (r: Option<seq<HBar>>)
    ensures r.Some? ==> DataFetcher.KlineItems(resp).Some?
    ensures r.Some? ==> var items := DataFetcher.KlineItems(resp).value;
      |r.value| == |items| > 0
      && forall i | 0 <= i < |items| :: items[i].Str? && ParseHBar(items[i].s, num) == Some(r.value[i])
    ensures var items := DataFetcher.KlineItems(resp);
      r.Some? <==> items.Some? && forall i | 0 <= i < |items.value| ::
        items.value[i].Str? && ParseHBar(items.value[i].s, num).Some?
  {
    match DataFetcher.KlineItems(resp)
    case None => None
    case Some(items) =>
      assert |items| > 0 by {
        var d := Json.TruthyMember(resp.value, "data").value;
        var k := Json.TruthyMember(d, "klines").value;
        assert Json.Truthy(k) && items == Json.AsSequence(k).value;
      }
      DataFetcher.ParseLines(items, (line: string) => ParseHBar(line, num))
  }

  /** The number of klines requested for `days` days (`lmt={days + 10}`). */
  function RequestLimit(days: int): int {
    days + 10
  }

  function Attempt(respond: Responder, days: int, num: DataFetcher.NumberParser, a: nat): Option<seq<HBar>> {
    Frame(respond(RequestLimit(days), a), num)
  }

  /** The outcomes of the `MaxRetries` attempts, in order. */
  function Attempts(respond: Responder, days: int, num: DataFetcher.NumberParser): (r: seq<Option<seq<HBar>>>)
    ensures |r| == MaxRetries
    ensures forall a | 0 <= a < MaxRetries :: r[a] == Attempt(respond, days, num, a)
  {
    seq(MaxRetries, a requires 0 <= a < MaxRetries => Attempt(respond, days, num, a))
  }

  /** The retry loop from attempt `a` on: the first outcome that is a frame
      wins; `None` when every remaining outcome failed. */
  function FirstSome<X>(outcomes: seq<Option<X>>, a: nat): (r: Option<X>)
    requires a <= |outcomes|
    ensures r.Some? <==> exists b | a <= b < |outcomes| :: outcomes[b].Some?
    ensures r.Some? ==> exists b | a <= b < |outcomes| ::
      r == outcomes[b] && forall c | a <= c < b :: outcomes[c].None?
    decreases |outcomes| - a
  {
    if a == |outcomes| then None
    else if outcomes[a].Some? then outcomes[a]
    else FirstSome(outcomes, a + 1)
  }

  /** `get_history_data(days)`: at most `MaxRetries` attempts, the first one
      that yields a frame wins, and `None` when none does. */
  function GetHistoryData(respond: Responder, days: int, num: DataFetcher.NumberParser): (r: Option<seq<HBar>>)
    ensures r.Some? <==> exists a | 0 <= a < MaxRetries :: Attempt(respond, days, num, a).Some?
    ensures r.Some? ==> |r.value| > 0
    ensures r.Some? ==> exists a | 0 <= a < MaxRetries ::
      r == Attempt(respond, days, num, a)
      && forall c | 0 <= c < a :: Attempt(respond, days, num, c).None?
  {
    FirstSome(Attempts(respond, days, num), 0)
  }

  /** Nothing beyond the third attempt is ever requested: two providers that
      answer the first `MaxRetries` attempts alike give the same result. */
  lemma RetryIsBounded(p: Responder, q: Responder, days: int, num: DataFetcher.NumberParser)
    requires forall b | 0 <= b < MaxRetries :: p(RequestLimit(days), b) == q(RequestLimit(days), b)
    ensures GetHistoryData(p, days, num) == GetHistoryData(q, days, num)
  {
    var ps, qs := Attempts(p, days, num), Attempts(q, days, num);
    forall a | 0 <= a < MaxRetries
      ensures ps[a] == qs[a]
    {
      assert p(RequestLimit(days), a) == q(RequestLimit(days), a);
    }
    assert ps == qs;
  }

  /** A provider that answers the first attempt needs no retry, and one that
      fails every attempt makes the fetch give up with `None`. */
  lemma RetryOutcomes(respond: Responder, days: int, num: DataFetcher.NumberParser)
    ensures Attempt(respond, days, num, 0).Some? ==>
      GetHistoryData(respond, days, num) == Attempt(respond, days, num, 0)
    ensures (forall a | 0 <= a < MaxRetries :: Attempt(respond, days, num, a).None?) ==>
      GetHistoryData(respond, days, num).None?
  {
  }

  // ---------------------------------------------------------------- indicators

  function Highs(bars: seq<HBar>): (r: seq<real>)
    ensures |r| == |bars| && forall i | 0 <= i < |bars| :: r[i] == bars[i].high
  {
    seq(|bars|, i requires 0 <= i < |bars| => bars[i].high)
  }

  function Lows(bars: seq<HBar>): (r: seq<real>)
    ensures |r| == |bars| && forall i | 0 <= i < |bars| :: r[i] == bars[i].low
  {
    seq(|bars|, i requires 0 <= i < |bars| => bars[i].low)
  }

  function Closes(bars: seq<HBar>): (r: seq<real>)
    ensures |r| == |bars| && forall i | 0 <= i < |bars| :: r[i] == bars[i].close
  {
    seq(|bars|, i requires 0 <= i < |bars| => bars[i].close)
  }

  function Max(s: seq<real>): (m: real)
    requires |s| > 0
    ensures forall i | 0 <= i < |s| :: s[i] <= m
    ensures exists i | 0 <= i < |s| :: s[i] == m
  {
    if |s| == 1 then s[0]
    else
      var rest := Max(s[1..]);
      assert forall i | 1 <= i < |s| :: s[i] == s[1..][i - 1];
      if s[0] >= rest then s[0] else rest
  }

  function Min(s: seq<real>): (m: real)
    requires |s| > 0
    ensures forall i | 0 <= i < |s| :: m <= s[i]
    ensures exists i | 0 <= i < |s| :: s[i] == m
  {
    if |s| == 1 then s[0]
    else
      var rest := Min(s[1..]);
      assert forall i | 1 <= i < |s| :: s[i] == s[1..][i - 1];
      if s[0] <= rest then s[0] else rest
  }

  function Sum(s: seq<real>): real {
    if |s| == 0 then 0.0 else Sum(s[..|s| - 1]) + s[|s| - 1]
  }

  /** How many of the last bars `tail(20)` keeps. */
  function Recent(n: nat): (w: nat)
    ensures w <= n && w <= Window && (n > 0 ==> w > 0)
  {
    if n < Window then n else Window
  }

  /** `df["最高"].tail(20).max()`: the highest high of the last bars, one of
      them and at least every one of them. */
  function RecentHigh(bars: seq<HBar>): (h: real)
    requires |bars| > 0
    ensures forall i | |bars| - Recent(|bars|) <= i < |bars| :: bars[i].high <= h
    ensures exists i | |bars| - Recent(|bars|) <= i < |bars| :: bars[i].high == h
  {
    var t := PyTail(Highs(bars), Window);
    var off := |bars| - |t|;
    assert forall i | off <= i < |bars| :: bars[i].high == t[i - off];
    var m := Max(t);
    var k :| 0 <= k < |t| && t[k] == m;
    assert bars[off + k].high == m;
    m
  }

  /** `df["最低"].tail(20).min()`: the lowest low of the last bars. */
  function RecentLow(bars: seq<HBar>): (l: real)
    requires |bars| > 0
    ensures forall i | |bars| - Recent(|bars|) <= i < |bars| :: l <= bars[i].low
    ensures exists i | |bars| - Recent(|bars|) <= i < |bars| :: bars[i].low == l
  {
    var t := PyTail(Lows(bars), Window);
    var off := |bars| - |t|;
    assert forall i | off <= i < |bars| :: bars[i].low == t[i - off];
    var m := Min(t);
    var k :| 0 <= k < |t| && t[k] == m;
    assert bars[off + k].low == m;
    m
  }

  /** `df["收盘"].rolling(window=250).mean().iloc[-1]`: the mean close of the
      last 250 bars, undefined (NaN) with fewer bars. */
  function Ma250(bars: seq<HBar>): (r: Option<real>)
    ensures r.Some? <==> |bars| >= MaPeriod
  {
    if |bars| < MaPeriod then None
    else Some(Sum(Closes(bars)[|bars| - MaPeriod..]) / MaPeriod as real)
  }

  /** `calculate_technical_indicators(df)` on a non-empty frame. */
  function IndicatorsOf(bars: seq<HBar>): (ind: Indicators)
    requires |bars| > 0
    ensures ind.ma250 == Ma250(bars)
    ensures ind.recentHigh == RecentHigh(bars) && ind.recentLow == RecentLow(bars)
  {
    Indicators(Ma250(bars), RecentHigh(bars), RecentLow(bars))
  }

  lemma {:induction false} SumBounds(s: seq<real>, lo: real, hi: real)
    requires forall i | 0 <= i < |s| :: lo <= s[i] <= hi
    ensures |s| as real * lo <= Sum(s) <= |s| as real * hi
    decreases |s|
  {
    if |s| > 0 {
      SumBounds(s[..|s| - 1], lo, hi);
    }
  }

  /** The 250-day mean lies between the lowest and the highest of the closes
      it averages. */
  lemma Ma250WithinCloses(bars: seq<HBar>)
    requires |bars| >= MaPeriod
    ensures var w := Closes(bars)[|bars| - MaPeriod..];
      Min(w) <= Ma250(bars).value <= Max(w)
  {
    var w := Closes(bars)[|bars| - MaPeriod..];
    var lo, hi, total := Min(w), Max(w), Sum(w);
    SumBounds(w, lo, hi);
    assert |w| == 250;
    assert 250.0 * lo <= total <= 250.0 * hi;
    assert Ma250(bars).value == total / 250.0;
  }

  /** With every bar's low at most its high, the recent low is at most the
      recent high. */
  lemma RecentLowBelowHigh(bars: seq<HBar>)
    requires |bars| > 0
    ensures (forall i | 0 <= i < |bars| :: bars[i].low <= bars[i].high) ==> RecentLow(bars) <= RecentHigh(bars)
  {
    var k :| |bars| - Recent(|bars|) <= k < |bars| && bars[k].low == RecentLow(bars);
    assert bars[k].high <= RecentHigh(bars);
  }

  // ---------------------------------------------------------------- the AI prompt

  /** `{v:.2f}` of a value that may be NaN. */
  function MaybeFixed2(v: Option<real>, fmt: Format): string {
    match v
    case None => "nan"
    case Some(x) => fmt.fixed2(x)
  }

  const PromptOpening := "你是专业的港股市场分析师，擅长技术分析和实战策略。" + "请基于以下恒生科技指数 (124.HSTECH) 的数据，进行支撑位和压力位分析，并给出入场时机建议：\n\n"
  const PromptClosing := "\n\n分析要求：\n1. **支撑位分析**：识别关键支撑位（至少 2 个），说明理由\n2. **压力位分析**：识别关键压力位（至少 2 个），说明理由\n3. **入场时机建议**：给出具体的入场点位区间和止损位\n4. **风险提示**：简要提醒主要风险因素\n\n请用中文回答，保持客观专业，控制在 300 字以内。直接给出分析结果，不需要客套话。"

  /** The data summary block the prompt carries. */
  function DataSummary(q: HQuote, ind: Indicators, fmt: Format): string {
    "\n恒生科技指数 (124.HSTECH) 实时数据：\n- 最新价：" + fmt.fixed2(q.latest)
    + " 点\n- 涨跌幅：" + fmt.signed2(q.changePct)
    + "%\n- 开盘：" + fmt.fixed2(q.open)
    + " 点\n- 最高：" + fmt.fixed2(q.high)
    + " 点\n- 最低：" + fmt.fixed2(q.low)
    + " 点\n- 昨收：" + fmt.fixed2(q.prevClose)
    + " 点\n\n技术面数据：\n- 近 20 日最高点：" + fmt.fixed2(ind.recentHigh)
    + " 点\n- 近 20 日最低点：" + fmt.fixed2(ind.recentLow)
    + " 点\n- 250 日均线：" + MaybeFixed2(ind.ma250, fmt)
    + " 点\n- 当前点位：" + fmt.fixed2(q.latest) + " 点\n"
  }

  /** The analyst prompt: the fixed opening, the data summary verbatim, the
      fixed requirements. */
  function AnalystPrompt(q: HQuote, ind: Indicators, fmt: Format): (r: string)
    ensures AiAnalyzer.Embeds(r, PromptOpening, DataSummary(q, ind, fmt), PromptClosing)
  {
    AiAnalyzer.EmbedsConcat(PromptOpening, DataSummary(q, ind, fmt), PromptClosing);
    PromptOpening + DataSummary(q, ind, fmt) + PromptClosing
  }

  // ---------------------------------------------------------------- rule-based fallback

  /** Python's `int(x)` on a finite float: truncation toward zero. */
  function Trunc(x: real): (n: int)
    ensures x >= 0.0 ==> n >= 0 && n as real <= x < n as real + 1.0
    ensures x < 0.0 ==> n <= 0 && n as real - 1.0 < x <= n as real
  {
    if x >= 0.0 then x.Floor else -((-x).Floor)
  }

  lemma TruncMonotone(x: real, y: real)
    requires x <= y
    ensures Trunc(x) <= Trunc(y)
  {
  }

  /** The entry, stop and resistance levels derived from the latest price and
      the recent range. */
  function LevelsOf(latest: real, low: real, high: real): (lv: Levels)
    ensures lv.aggressiveLow == Trunc(latest * 0.98) && lv.aggressiveHigh == Trunc(latest * 0.99)
    ensures lv.steady == Trunc(low) && lv.stopLoss == Trunc(low * 0.97)
    ensures lv.platform == Trunc(high * 1.05)
  {
    Levels(Trunc(latest * 0.98), Trunc(latest * 0.99), Trunc(low), Trunc(low * 0.97), Trunc(high * 1.05))
  }

  /** For non-negative prices the levels are ordered: the stop loss at most
      the steady entry, the aggressive range well formed and below the latest
      price, and, with the low at most the high, the steady entry at most the
      recent high at most the platform level. */
  lemma {:induction false} LevelsOrdered(latest: real, low: real, high: real)
    requires 0.0 <= latest && 0.0 <= low
    ensures var lv := LevelsOf(latest, low, high);
      lv.stopLoss <= lv.steady
      && lv.aggressiveLow <= lv.aggressiveHigh <= Trunc(latest)
      && (low <= high ==> lv.steady <= Trunc(high) <= lv.platform)
  {
    TruncMonotone(low * 0.97, low);
    TruncMonotone(latest * 0.98, latest * 0.99);
    TruncMonotone(latest * 0.99, latest);
    if low <= high {
      TruncMonotone(low, high);
      TruncMonotone(high, high * 1.05);
    }
  }

  const FallbackOpening := "\n**技术面分析**：\n- 当前点位："
  const FallbackClosing := " 点\n\n*注：此分析基于规则模板生成，仅供参考，投资需谨慎。*\n"

  /** The advice lines, which quote the integer levels. */
  function AdviceText(lv: Levels): string {
    "- 激进型：可在 " + IntText(lv.aggressiveLow) + "-" + IntText(lv.aggressiveHigh)
    + " 点区间轻仓试多\n- 稳健型：等待回踩 " + IntText(lv.steady)
    + " 点附近再考虑入场\n- 止损位：" + IntText(lv.stopLoss)
  }

  /** The second support line: the 250-day mean as `maSupport` prints it. */
  function SupportLine(maSupport: string): string {
    "2. " + maSupport + " 点（250 日均线）"
  }

  /** The second pressure line: the platform level. */
  function PlatformLine(platform: int): string {
    "2. " + IntText(platform) + " 点（前期平台）"
  }

  /** The rule-based text, with `maSupport` standing for the second support
      level (the 250-day mean): it opens with the heading and holds the
      second support line, the platform pressure line and the advice lines
      quoting the integer levels. */
  function FallbackText(q: HQuote, ind: Indicators, maSupport: string, fmt: Format): (r: string)
    ensures var lv := LevelsOf(q.latest, ind.recentLow, ind.recentHigh);
      Contains(r, AdviceText(lv)) && StartsWith(r, FallbackOpening)
    ensures Contains(r, SupportLine(maSupport))
    ensures Contains(r, PlatformLine(LevelsOf(q.latest, ind.recentLow, ind.recentHigh).platform))
  {
    var lv := LevelsOf(q.latest, ind.recentLow, ind.recentHigh);
    var lows, support, highs := LowsBlock(q, ind, fmt), SupportLine(maSupport), HighsBlock(ind, fmt);
    var platform, advice := PlatformLine(lv.platform), AdviceText(lv);
    FallbackPieces(FallbackOpening, lows, support, highs, platform, AdviceHeading, advice, FallbackClosing);
    FallbackOpening + lows + support + highs + platform + (AdviceHeading + advice + FallbackClosing)
  }

  /** Where the pieces of the rule-based text sit in it. */
  lemma FallbackPieces(opening: string, lows: string, support: string, highs: string, platform: string,
                       heading: string, advice: string, closing: string)
    ensures var r := opening + lows + support + highs + platform + (heading + advice + closing);
      StartsWith(r, opening) && Contains(r, support) && Contains(r, platform) && Contains(r, advice)
  {
    var tail := heading + advice + closing;
    var r := opening + lows + support + highs + platform + tail;
    ContainsMiddle(opening, lows, support + highs + platform + tail);
    assert r == opening + lows + (support + highs + platform + tail);
    ContainsMiddle(opening + lows, support, highs + platform + tail);
    assert r == opening + lows + support + (highs + platform + tail);
    ContainsMiddle(opening + lows + support + highs, platform, tail);
    ContainsMiddle(heading, advice, closing);
    ContainsSuffix(opening + lows + support + highs + platform, tail, advice);
  }

  /** The quote, range and trend lines and the first support line. */
  function LowsBlock(q: HQuote, ind: Indicators, fmt: Format): string {
    fmt.fixed2(q.latest) + " 点，涨跌幅 " + fmt.signed2(q.changePct)
      + "%\n- 近 20 日区间：" + fmt.fixed2(ind.recentLow) + " - " + fmt.fixed2(ind.recentHigh)
      + " 点\n- 长期趋势线：250 日均线 " + MaybeFixed2(ind.ma250, fmt)
      + " 点\n\n**支撑位**：\n1. " + fmt.fixed0(ind.recentLow)
      + " 点（近 20 日低点）\n"
  }

  /** The pressure heading and the first pressure line. */
  function HighsBlock(ind: Indicators, fmt: Format): string {
    "\n\n**压力位**：\n1. " + fmt.fixed0(ind.recentHigh) + " 点（近 20 日高点）\n"
  }

  const AdviceHeading := "\n\n**操作建议**：\n"

  /** The indicators of a frame as the analysis computes them; a missing
      frame (`None["最高"]`, TypeError) or an empty one (`iloc[-1]`,
      IndexError) raises. */
  function Indicated(history: Option<seq<HBar>>): (r: Result<Indicators>)
    ensures r.Success? <==> history.Some? && |history.value| > 0
    ensures r.Success? ==> r.value == IndicatorsOf(history.value)
  {
    if history.None? then Failure("TypeError: 'NoneType' object is not subscriptable")
    else if |history.value| == 0 then Failure("IndexError: single positional indexer is out-of-bounds")
    else Success(IndicatorsOf(history.value))
  }

  /** `_generate_fallback_analysis` as written: `int(ma250)` raises
      ValueError when the mean is NaN, i.e. with fewer than 250 bars. */
  function FallbackAsWritten(q: HQuote, history: Option<seq<HBar>>, fmt: Format): (r: Result<string>)
    ensures r.Success? <==> history.Some? && |history.value| >= MaPeriod
    ensures r.Success? ==>
      Contains(r.value, SupportLine(IntText(Trunc(Ma250(history.value).value))))
      && Contains(r.value, PlatformLine(LevelsOf(q.latest, RecentLow(history.value), RecentHigh(history.value)).platform))
  {
    var ind :- Indicated(history);
    match ind.ma250
    case None => Failure("ValueError: cannot convert float NaN to integer")
    case Some(m) => Success(FallbackText(q, ind, IntText(Trunc(m)), fmt))
  }

  /** Any non-empty frame shorter than 250 bars makes the as-written fallback
      raise instead of producing its text. */
  lemma FallbackAsWrittenFailsOnShortHistory(q: HQuote, bars: seq<HBar>, fmt: Format)
    requires 0 < |bars| < MaPeriod
    ensures FallbackAsWritten(q, Some(bars), fmt).Failure?
    ensures Fallback(q, Some(bars), fmt).Success?
  {
  }

  /** `_generate_fallback_analysis` with the second support level written
      like the first (`{ma250:.0f}`), which prints `nan` for an undefined
      mean instead of raising. */
  function Fallback(q: HQuote, history: Option<seq<HBar>>, fmt: Format): (r: Result<string>)
    ensures r.Success? <==> history.Some? && |history.value| > 0
    ensures r.Success? ==>
      var lv := LevelsOf(q.latest, RecentLow(history.value), RecentHigh(history.value));
      Contains(r.value, AdviceText(lv)) && StartsWith(r.value, FallbackOpening)
      && Contains(r.value, PlatformLine(lv.platform))
    ensures r.Success? && |history.value| < MaPeriod ==> Contains(r.value, "2. nan 点（250 日均线）")
    ensures r.Success? && |history.value| >= MaPeriod ==>
      Contains(r.value, SupportLine(IntText(Trunc(Ma250(history.value).value))))
  {
    var ind :- Indicated(history);
    var maSupport := match ind.ma250 case None => NanText case Some(m) => IntText(Trunc(m));
    NanSupportLine();
    Success(FallbackText(q, ind, maSupport, fmt))
  }

  /** How `{x:.0f}` prints an undefined mean. */
  const NanText := "nan"

  lemma NanSupportLine()
    ensures SupportLine(NanText) == "2. nan 点（250 日均线）"
  {
  }

  /** Wherever the as-written fallback produces text, the corrected one
      produces the same text. */
  lemma FallbackAgreesWhenDefined(q: HQuote, history: Option<seq<HBar>>, fmt: Format)
    requires FallbackAsWritten(q, history, fmt).Success?
    ensures Fallback(q, history, fmt) == FallbackAsWritten(q, history, fmt)
  {
  }

  // ---------------------------------------------------------------- analyze

  /** What the AI subprocess ends with for the analyst prompt. */
  function AiProcess(q: HQuote, ind: Indicators, oracle: AiAnalyzer.Oracle, fmt: Format): AiAnalyzer.Process {
    oracle(AnalystPrompt(q, ind, fmt))
  }

  /** The AI answer over a usable frame is empty. */
  predicate AiBlank(q: HQuote, bars: seq<HBar>, oracle: AiAnalyzer.Oracle, fmt: Format)
    requires |bars| > 0
  {
    AiAnalyzer.CallAi(AiProcess(q, IndicatorsOf(bars), oracle, fmt)) == ""
  }

  /** The body of `HSTECHAnalyzer.analyze` with the rule-based outcome as a
      value: the AI text when it is non-empty, the fallback when it is empty
      or when the indicators raise (the `except` branch calls the fallback
      again, which raises again whenever the first call did). */
  function AnalyzeWith(q: HQuote, history: Option<seq<HBar>>, oracle: AiAnalyzer.Oracle, fmt: Format,
                       fallback: Result<string>): (r: Result<string>)
    ensures Unusable(history) ==> r == fallback
    ensures !Unusable(history) ==>
      r == (if AiBlank(q, history.value, oracle, fmt) then fallback
            else Success(AiAnalyzer.CallAi(AiProcess(q, IndicatorsOf(history.value), oracle, fmt))))
  {
    match Indicated(history)
    case Failure(_) => fallback
    case Success(ind) =>
      var text := AiAnalyzer.CallAi(AiProcess(q, ind, oracle, fmt));
      if text != "" then Success(text) else fallback
  }

  /** `HSTECHAnalyzer.analyze(realtime, history)` as written: it raises on a
      missing or empty frame, and also when the AI answer is empty over
      fewer than 250 bars, because the fallback it turns to then raises. */
  function Analyze(q: HQuote, history: Option<seq<HBar>>, oracle: AiAnalyzer.Oracle, fmt: Format): (r: Result<string>)
    ensures r.Failure? <==>
      Unusable(history) || (AiBlank(q, history.value, oracle, fmt) && |history.value| < MaPeriod)
    ensures r.Success? ==> r.value != ""
  {
    AnalyzeWith(q, history, oracle, fmt, FallbackAsWritten(q, history, fmt))
  }

  /** `analyze` over the corrected fallback: it raises only on a missing or
      empty frame. */
  function AnalyzeCorrected(q: HQuote, history: Option<seq<HBar>>, oracle: AiAnalyzer.Oracle, fmt: Format): (r: Result<string>)
    ensures r.Failure? <==> Unusable(history)
    ensures r.Success? ==> r.value != ""
  {
    AnalyzeWith(q, history, oracle, fmt, Fallback(q, history, fmt))
  }

  /** The correction changes nothing where the code as written answers, and
      answers everywhere the frame is usable. */
  lemma AnalyzeCorrectedExtends(q: HQuote, history: Option<seq<HBar>>, oracle: AiAnalyzer.Oracle, fmt: Format)
    ensures Analyze(q, history, oracle, fmt).Success? ==>
      AnalyzeCorrected(q, history, oracle, fmt) == Analyze(q, history, oracle, fmt)
    ensures !Unusable(history) ==> AnalyzeCorrected(q, history, oracle, fmt).Success?
  {
    if Analyze(q, history, oracle, fmt).Success? && AiBlank(q, history.value, oracle, fmt) {
      FallbackAgreesWhenDefined(q, history, fmt);
    }
  }

  /** A non-empty frame shorter than 250 bars with a blank AI answer makes
      the code as written raise where the corrected analysis answers with
      the rule-based text. */
  lemma AnalyzeRaisesOnBlankShortHistory(q: HQuote, bars: seq<HBar>, oracle: AiAnalyzer.Oracle, fmt: Format)
    requires 0 < |bars| < MaPeriod && AiBlank(q, bars, oracle, fmt)
    ensures Analyze(q, Some(bars), oracle, fmt).Failure?
    ensures AnalyzeCorrected(q, Some(bars), oracle, fmt) == Fallback(q, Some(bars), fmt)
    ensures AnalyzeCorrected(q, Some(bars), oracle, fmt).Success?
  {
  }

  /** Over a usable frame the AI answer is passed through unchanged, the
      starred failure texts included, unless the subprocess succeeded with a
      blank output; exactly then the as-written fallback is the outcome. */
  lemma AnalyzeUsesAiUnlessBlank(q: HQuote, bars: seq<HBar>, oracle: AiAnalyzer.Oracle, fmt: Format)
    requires |bars| > 0
    ensures var p := AiProcess(q, IndicatorsOf(bars), oracle, fmt);
      (AiAnalyzer.Succeeded(p) && AllSpace(p.stdout) ==>
         Analyze(q, Some(bars), oracle, fmt) == FallbackAsWritten(q, Some(bars), fmt))
      && (!(AiAnalyzer.Succeeded(p) && AllSpace(p.stdout)) ==>
            Analyze(q, Some(bars), oracle, fmt) == Success(AiAnalyzer.CallAi(p)))
  {
    AiAnalyzer.CallAiEmptyIffBlankSuccess(AiProcess(q, IndicatorsOf(bars), oracle, fmt));
  }

  // ---------------------------------------------------------------- the facade

  /** The quote `get_quick_analysis` builds from the last bar when no
      realtime quote is available: no change, and the previous close taken
      from the bar before when there is one. */
  function QuoteFromBars(bars: seq<HBar>): (q: HQuote)
    requires |bars| > 0
    ensures var last := bars[|bars| - 1];
      q.name == IndexName && q.changePct == 0.0
      && q.latest == last.close && q.open == last.open && q.high == last.high && q.low == last.low
      && q.prevClose == (if |bars| >= 2 then bars[|bars| - 2].close else last.close)
  {
    var last := bars[|bars| - 1];
    HQuote(IndexName, last.close, 0.0, last.open, last.high, last.low,
           if |bars| > 1 then bars[|bars| - 2].close else last.close)
  }

  /** A missing frame, or an empty one (`history_data.empty`). */
  predicate Unusable(h: Option<seq<HBar>>) {
    h.None? || |h.value| == 0
  }

  /** The quote `get_quick_analysis` analyses: the realtime one, else the
      one built from the 5-day frame. */
  function QuickQuote(realtime: Option<HQuote>, respond: Responder, num: DataFetcher.NumberParser): (q: Option<HQuote>)
    ensures q.Some? <==> realtime.Some? || GetHistoryData(respond, 5, num).Some?
    ensures realtime.Some? ==> q == realtime
  {
    match realtime
    case Some(_) => realtime
    case None =>
      var recent := GetHistoryData(respond, 5, num);
      if Unusable(recent) then None else Some(QuoteFromBars(recent.value))
  }

  /** The frame `get_quick_analysis` analyses: the 365-day one, else the
      30-day one. */
  function QuickHistory(respond: Responder, num: DataFetcher.NumberParser): (h: Option<seq<HBar>>)
    ensures h.Some? <==> GetHistoryData(respond, 365, num).Some? || GetHistoryData(respond, 30, num).Some?
    ensures GetHistoryData(respond, 365, num).Some? ==> h == GetHistoryData(respond, 365, num)
    ensures h.Some? ==> |h.value| > 0
  {
    var year := GetHistoryData(respond, 365, num);
    if Unusable(year) then GetHistoryData(respond, 30, num) else year
  }

  /** `get_quick_analysis()`: raises `无法获取任何数据` without a quote source,
      and otherwise exactly where the as-written analysis of the chosen quote
      and frame raises. */
  function QuickAnalysis(realtime: Option<HQuote>, respond: Responder, num: DataFetcher.NumberParser,
                         oracle: AiAnalyzer.Oracle, fmt: Format): (r: Result<string>)
    ensures realtime.None? && GetHistoryData(respond, 5, num).None? ==> r == Failure(NoDataText)
    ensures r.Success? <==>
      QuickQuote(realtime, respond, num).Some? && QuickHistory(respond, num).Some?
      && (|QuickHistory(respond, num).value| >= MaPeriod
          || !AiBlank(QuickQuote(realtime, respond, num).value, QuickHistory(respond, num).value, oracle, fmt))
    ensures r.Success? ==> r.value != ""
  {
    var q := QuickQuote(realtime, respond, num);
    if q.None? then Failure(NoDataText)
    else Analyze(q.value, QuickHistory(respond, num), oracle, fmt)
  }

  /** Without a realtime quote the analysis runs on the quote built from the
      5-day frame, and the 30-day frame is fetched only when the 365-day one
      is missing. */
  lemma QuickAnalysisSources(realtime: Option<HQuote>, respond: Responder, num: DataFetcher.NumberParser,
                             oracle: AiAnalyzer.Oracle, fmt: Format)
    requires realtime.Some? || GetHistoryData(respond, 5, num).Some?
    ensures var q := if realtime.Some? then realtime.value else QuoteFromBars(GetHistoryData(respond, 5, num).value);
      var year := GetHistoryData(respond, 365, num);
      QuickAnalysis(realtime, respond, num, oracle, fmt)
        == Analyze(q, if year.Some? then year else GetHistoryData(respond, 30, num), oracle, fmt)
  {
  }

  /** What `generate_analysis_chart` does when `save_chart` is set: it
      either returns or re-raises whatever drawing or saving raised. */
  datatype ChartOutcome = Drawn | ChartRaised(error: string)

  /** Steps 3 to 5 of `generate_full_report` over a usable frame: the
      indicators, the as-written analysis and the chart. */
  function FullReportOf(q: HQuote, bars: seq<HBar>, oracle: AiAnalyzer.Oracle, fmt: Format,
                        saveChart: bool, chart: ChartOutcome): (r: Result<FullReport>)
    requires |bars| > 0
    ensures r.Success? <==>
      (|bars| >= MaPeriod || !AiBlank(q, bars, oracle, fmt)) && (saveChart ==> chart.Drawn?)
    ensures r.Success? ==>
      r.value.realtime == q && r.value.history == bars
      && r.value.indicators == IndicatorsOf(bars)
      && Success(r.value.analysis) == Analyze(q, Some(bars), oracle, fmt)
      && r.value.analysis != ""
    ensures r.Success? && (forall i | 0 <= i < |bars| :: bars[i].low <= bars[i].high) ==>
      r.value.indicators.recentLow <= r.value.indicators.recentHigh
  {
    var analysis := Analyze(q, Some(bars), oracle, fmt);
    RecentLowBelowHigh(bars);
    if analysis.Failure? then Failure(analysis.reason)
    else if saveChart && chart.ChartRaised? then Failure(chart.error)
    else Success(FullReport(q, bars, IndicatorsOf(bars), analysis.value))
  }

  /** `generate_full_report(save_chart)` without the chart's contents: raises
      when the realtime quote or the 365-day frame is missing, when the
      as-written analysis raises, and when the chart is asked for and its
      generation raises; otherwise carries that frame, its indicators and
      its analysis. */
  function GenerateFullReport(realtime: Option<HQuote>, respond: Responder, num: DataFetcher.NumberParser,
                              oracle: AiAnalyzer.Oracle, fmt: Format, saveChart: bool, chart: ChartOutcome): (r: Result<FullReport>)
    ensures realtime.None? ==> r == Failure(NoRealtimeText)
    ensures realtime.Some? && GetHistoryData(respond, 365, num).None? ==> r == Failure(NoHistoryText)
    ensures var h := GetHistoryData(respond, 365, num);
      r.Success? <==>
        realtime.Some? && h.Some?
        && (|h.value| >= MaPeriod || !AiBlank(realtime.value, h.value, oracle, fmt))
        && (saveChart ==> chart.Drawn?)
    ensures realtime.Some? && GetHistoryData(respond, 365, num).Some? ==>
      r == FullReportOf(realtime.value, GetHistoryData(respond, 365, num).value, oracle, fmt, saveChart, chart)
  {
    if realtime.None? then Failure(NoRealtimeText)
    else
      var history := GetHistoryData(respond, 365, num);
      if Unusable(history) then Failure(NoHistoryText)
      else FullReportOf(realtime.value, history.value, oracle, fmt, saveChart, chart)
  }
}
