/** Cyclical-industry analysis (analyzer/cyclical_analyzer.py): the parser that
    reads the AI's four labelled answer lines into fields, the per-industry
    loop of `analyze_cyclical_industries`, and the mapping from an analysis
    to a position on the cycle chart. Plotting is not modelled; the chart
    renderer is a parameter. */
module Cyclical {
  import opened Wrappers
  import opened Text
  import Json
  import DataFetcher
  import AiAnalyzer

  const Unknown := "未知"
  /** The text whose presence switches structured parsing on. */
  const Anchor := "当前周期"
  const PhaseLabel := "当前周期:"
  const PositionLabel := "周期位置:"
  const DurationLabel := "持续时间:"
  const AnalysisLabel := "分析:"
  const Bold := "**"

  /** Industry name to the provider's sector id. */
  const IndustryMap: map<string, string> := map[
    "军工" := "90.BK0424",
    "猪肉" := "90.BK0574",
    "半导体" := "90.BK0917",
    "光伏" := "90.BK0822",
    "新能源车" := "90.BK0900"
  ]

  /** The four fields read from an AI reply. */
  datatype Fields = Fields(phase: string, position: string, duration: string, analysis: string)

  /** One entry of the returned list: the dict with keys `industry`,
      `current_phase`, `cycle_position`, `duration`, `analysis` and, when
      charts were attached, `chart_base64`. */
  datatype Industry = Industry(name: string, fields: Fields, chart: Option<string>)

  // ---------------------------------------------------------------- reply parsing

  /** A line with `**` removed and surrounding whitespace stripped. */
  function CleanLine(line: string): string {
    Strip(RemoveAll(line, Bold))
  }

  /** A cleaned line with every occurrence of its label removed, stripped. */
  function LabelValue(clean: string, tag: string): string
    requires |tag| > 0
  {
    Strip(RemoveAll(clean, tag))
  }

  predicate IsLabelled(line: string) {
    var c := CleanLine(line);
    StartsWith(c, PhaseLabel) || StartsWith(c, PositionLabel)
    || StartsWith(c, DurationLabel) || StartsWith(c, AnalysisLabel)
  }

  /** One pass of the loop body: the first label the cleaned line starts with
      sets its field; any other line changes nothing. */
  function ApplyLine(f: Fields, line: string): (g: Fields)
    ensures !IsLabelled(line) ==> g == f
    ensures StartsWith(CleanLine(line), PhaseLabel) ==>
      g == f.(phase := LabelValue(CleanLine(line), PhaseLabel))
    ensures StartsWith(CleanLine(line), PositionLabel) ==>
      g == f.(position := LabelValue(CleanLine(line), PositionLabel))
    ensures StartsWith(CleanLine(line), DurationLabel) ==>
      g == f.(duration := LabelValue(CleanLine(line), DurationLabel))
    ensures StartsWith(CleanLine(line), AnalysisLabel) ==>
      g == f.(analysis := LabelValue(CleanLine(line), AnalysisLabel))
  {
    var c := CleanLine(line);
    LabelsExclusive(c);
    if StartsWith(c, PhaseLabel) then f.(phase := LabelValue(c, PhaseLabel))
    else if StartsWith(c, PositionLabel) then f.(position := LabelValue(c, PositionLabel))
    else if StartsWith(c, DurationLabel) then f.(duration := LabelValue(c, DurationLabel))
    else if StartsWith(c, AnalysisLabel) then f.(analysis := LabelValue(c, AnalysisLabel))
    else f
  }

  /** The `for line in lines` loop, first line first. */
  function ApplyLines(f: Fields, lines: seq<string>): Fields
    decreases |lines|
  {
    if |lines| == 0 then f else ApplyLines(ApplyLine(f, lines[0]), lines[1..])
  }

  /** The fields before any line is read: everything unknown, and the
      analysis is the whole reply. */
  function Defaults(reply: string): Fields {
    Fields(Unknown, Unknown, Unknown, reply)
  }

  /** Lines 131-152 of `analyze_cyclical_industries`: structured parsing runs
      only when the reply is non-empty and mentions the anchor label;
      otherwise the reply is kept verbatim as the analysis. */
  function ParseReply(reply: string): (f: Fields)
    ensures !Contains(reply, Anchor) ==> f == Defaults(reply)
    ensures Contains(reply, Anchor) ==> f == ApplyLines(Defaults(reply), Split(reply, '\n'))
  {
    if reply != "" && Contains(reply, Anchor) then ApplyLines(Defaults(reply), Split(reply, '\n'))
    else Defaults(reply)
  }

  // ---------------------------------------------------------------- last occurrence wins

  /** Reference reading of one field: the value of the LAST line labelled
      `tag`, or `None` when no line carries it. */
  function LastLabelled(lines: seq<string>, tag: string): Option<string>
    requires |tag| > 0
  {
    if |lines| == 0 then None
    else
      var c := CleanLine(lines[|lines| - 1]);
      if StartsWith(c, tag) then Some(LabelValue(c, tag))
      else LastLabelled(lines[..|lines| - 1], tag)
  }

  lemma {:induction false} ApplyLinesSnoc(f: Fields, lines: seq<string>, line: string)
    ensures ApplyLines(f, lines + [line]) == ApplyLine(ApplyLines(f, lines), line)
    decreases |lines|
  {
    if |lines| == 0 {
      assert ApplyLines(f, [line]) == ApplyLines(ApplyLine(f, line), []);
    } else {
      assert (lines + [line])[1..] == lines[1..] + [line];
      ApplyLinesSnoc(ApplyLine(f, lines[0]), lines[1..], line);
    }
  }

  /** At most one label can open a line: the labels start with different
      characters. */
  lemma LabelsExclusive(c: string)
    ensures StartsWith(c, PhaseLabel) ==> !StartsWith(c, PositionLabel) && !StartsWith(c, DurationLabel) && !StartsWith(c, AnalysisLabel)
    ensures StartsWith(c, PositionLabel) ==> !StartsWith(c, DurationLabel) && !StartsWith(c, AnalysisLabel)
    ensures StartsWith(c, DurationLabel) ==> !StartsWith(c, AnalysisLabel)
  {
    assert PhaseLabel[0] == '当' && PositionLabel[0] == '周' && DurationLabel[0] == '持' && AnalysisLabel[0] == '分';
    if StartsWith(c, PhaseLabel) { assert c[0] == PhaseLabel[0]; }
    if StartsWith(c, PositionLabel) { assert c[0] == PositionLabel[0]; }
    if StartsWith(c, DurationLabel) { assert c[0] == DurationLabel[0]; }
  }

  /** When a label occurs on several lines the last one decides its field;
      a field no line labels keeps its starting value. */
  lemma {:induction false} LastOccurrenceWins(f: Fields, lines: seq<string>)
    ensures ApplyLines(f, lines).phase == LastLabelled(lines, PhaseLabel).GetOr(f.phase)
    ensures ApplyLines(f, lines).position == LastLabelled(lines, PositionLabel).GetOr(f.position)
    ensures ApplyLines(f, lines).duration == LastLabelled(lines, DurationLabel).GetOr(f.duration)
    ensures ApplyLines(f, lines).analysis == LastLabelled(lines, AnalysisLabel).GetOr(f.analysis)
    decreases |lines|
  {
    if |lines| > 0 {
      var init := lines[..|lines| - 1];
      var last := lines[|lines| - 1];
      assert lines == init + [last];
      ApplyLinesSnoc(f, init, last);
      LastOccurrenceWins(f, init);
      LabelsExclusive(CleanLine(last));
    }
  }

  // ---------------------------------------------------------------- a worked reply

  /** Reading `[line] + rest` reads `line`, then `rest`. */
  lemma ApplyLinesCons(f: Fields, line: string, rest: seq<string>)
    ensures ApplyLines(f, [line] + rest) == ApplyLines(ApplyLine(f, line), rest)
  {
    assert ([line] + rest)[1..] == rest;
  }

  /** Reading four lines applies them one after another. */
  lemma ApplyFour(f: Fields, l1: string, l2: string, l3: string, l4: string)
    ensures ApplyLines(f, [l1, l2, l3, l4]) == ApplyLine(ApplyLine(ApplyLine(ApplyLine(f, l1), l2), l3), l4)
  {
    var f1 := ApplyLine(f, l1);
    var f2 := ApplyLine(f1, l2);
    var f3 := ApplyLine(f2, l3);
    ApplyLinesCons(f3, l4, []);
    ApplyLinesCons(f2, l3, [l4]);
    ApplyLinesCons(f1, l2, [l3, l4]);
    ApplyLinesCons(f, l1, [l2, l3, l4]);
    assert [l1] + [l2, l3, l4] == [l1, l2, l3, l4];
  }

  /** A trimmed line without `*` is its own cleaned form. */
  lemma CleanPlainLine(line: string)
    requires '*' !in line && Trimmed(line)
    ensures CleanLine(line) == line
  {
    if Contains(line, Bold) {
      ContainsFirstChar(line, Bold);
    }
    assert [] + line + [] == line;
    StripSurrounded([], line, []);
  }

  /** A line `tag value`, with a trimmed value that does not contain the tag's
      first character, carries `value` under `tag`. */
  lemma TaggedValue(tag: string, value: string)
    requires |tag| > 0 && tag[0] != ' '
    requires |value| > 0 && Trimmed(value) && tag[0] !in value
    ensures LabelValue(tag + " " + value, tag) == value
  {
    var line := tag + " " + value;
    assert StartsWith(line, tag) by { assert line[..|tag|] == tag; }
    assert line[|tag|..] == " " + value;
    if Contains(" " + value, tag) {
      ContainsFirstChar(" " + value, tag);
    }
    RemoveAllOpening(line, tag);
    assert " " + value == " " + value + [];
    assert AllSpace(" ");
    StripSurrounded(" ", value, []);
  }

  /** A labelled answer line `tag value` cleans to itself and yields `value`. */
  lemma LabelledLine(tag: string, value: string)
    requires |tag| > 0 && !IsSpace(tag[0]) && '*' !in tag
    requires |value| > 0 && Trimmed(value) && '*' !in value && tag[0] !in value
    ensures CleanLine(tag + " " + value) == tag + " " + value
    ensures LabelValue(tag + " " + value, tag) == value
  {
    var line := tag + " " + value;
    assert '*' !in line by {
      assert forall k | 0 <= k < |line| :: line[k] in tag || line[k] == ' ' || line[k] in value;
    }
    assert Trimmed(line) by {
      assert line[0] == tag[0];
      assert line[|line| - 1] == value[|value| - 1];
    }
    CleanPlainLine(line);
    TaggedValue(tag, value);
  }

  /** A value that reads back unchanged after `tag `: non-empty, trimmed, free
      of `*` and of the tag's first character. */
  predicate PlainValue(tag: string, value: string)
    requires |tag| > 0
  {
    |value| > 0 && Trimmed(value) && '*' !in value && tag[0] !in value
  }

  /** One labelled line `tag value` sets exactly the field `set` names. */
  lemma ApplyLabelled(f: Fields, tag: string, value: string)
    requires tag in [PhaseLabel, PositionLabel, DurationLabel, AnalysisLabel]
    requires PlainValue(tag, value)
    ensures tag == PhaseLabel ==> ApplyLine(f, tag + " " + value) == f.(phase := value)
    ensures tag == PositionLabel ==> ApplyLine(f, tag + " " + value) == f.(position := value)
    ensures tag == DurationLabel ==> ApplyLine(f, tag + " " + value) == f.(duration := value)
    ensures tag == AnalysisLabel ==> ApplyLine(f, tag + " " + value) == f.(analysis := value)
  {
    var line := tag + " " + value;
    LabelledLine(tag, value);
    assert StartsWith(line, tag) by { assert line[..|tag|] == tag; }
  }

  /** Four answer lines in the requested format fill the four fields. */
  lemma ApplyAnswerLines(f: Fields, phase: string, position: string, duration: string, analysis: string)
    requires PlainValue(PhaseLabel, phase) && PlainValue(PositionLabel, position)
    requires PlainValue(DurationLabel, duration) && PlainValue(AnalysisLabel, analysis)
    ensures ApplyLines(f, [PhaseLabel + " " + phase, PositionLabel + " " + position,
                           DurationLabel + " " + duration, AnalysisLabel + " " + analysis])
         == Fields(phase, position, duration, analysis)
  {
    var l1, l2, l3, l4 := PhaseLabel + " " + phase, PositionLabel + " " + position,
                          DurationLabel + " " + duration, AnalysisLabel + " " + analysis;
    ApplyFour(f, l1, l2, l3, l4);
    ApplyLabelled(f, PhaseLabel, phase);
    var f1 := f.(phase := phase);
    ApplyLabelled(f1, PositionLabel, position);
    var f2 := f1.(position := position);
    ApplyLabelled(f2, DurationLabel, duration);
    var f3 := f2.(duration := duration);
    ApplyLabelled(f3, AnalysisLabel, analysis);
  }

  /** A reply in exactly the requested answer format, one labelled line per
      field, parses into the four values it carries. */
  lemma ParseAnswerReply(phase: string, position: string, duration: string, analysis: string)
    requires PlainValue(PhaseLabel, phase) && PlainValue(PositionLabel, position)
    requires PlainValue(DurationLabel, duration) && PlainValue(AnalysisLabel, analysis)
    requires '\n' !in phase && '\n' !in position && '\n' !in duration && '\n' !in analysis
    ensures ParseReply(Join([PhaseLabel + " " + phase, PositionLabel + " " + position,
                             DurationLabel + " " + duration, AnalysisLabel + " " + analysis], "\n"))
         == Fields(phase, position, duration, analysis)
  {
    var l1, l2, l3, l4 := PhaseLabel + " " + phase, PositionLabel + " " + position,
                          DurationLabel + " " + duration, AnalysisLabel + " " + analysis;
    var lines := [l1, l2, l3, l4];
    NewlineFree(PhaseLabel, phase);
    NewlineFree(PositionLabel, position);
    NewlineFree(DurationLabel, duration);
    NewlineFree(AnalysisLabel, analysis);
    assert StartsWith(l1, Anchor) by { assert l1[..|Anchor|] == Anchor; }
    ParseJoined(lines);
    ApplyAnswerLines(Defaults(Join(lines, "\n")), phase, position, duration, analysis);
  }

  /** Newline-free lines, the first opening with the anchor, joined by
      newlines: the reply is parsed line by line, exactly those lines. */
  lemma ParseJoined(lines: seq<string>)
    requires |lines| >= 1 && StartsWith(lines[0], Anchor)
    requires forall i | 0 <= i < |lines| :: '\n' !in lines[i]
    ensures ParseReply(Join(lines, "\n")) == ApplyLines(Defaults(Join(lines, "\n")), lines)
  {
    var reply := Join(lines, "\n");
    JoinStartsWithFirst(lines, "\n");
    assert StartsWith(reply, Anchor) by {
      assert reply[..|lines[0]|] == lines[0];
      assert reply[..|Anchor|] == lines[0][..|Anchor|];
    }
    ContainsAt(reply, Anchor, 0);
    SplitJoin(lines, '\n');
  }

  lemma NewlineFree(tag: string, value: string)
    requires '\n' !in tag && '\n' !in value
    ensures '\n' !in tag + " " + value
  {
    var line := tag + " " + value;
    assert forall k | 0 <= k < |line| :: line[k] in tag || line[k] == ' ' || line[k] in value;
  }

  // ---------------------------------------------------------------- the industry loop

  /** The quote passed to the AI for an industry: fetched only when the
      industry has a sector id, otherwise `None`. */
  function QuoteFor(name: string, quoteFeed: string -> Option<Json.Value>): (q: Option<DataFetcher.Quote>)
    ensures name !in IndustryMap ==> q.None?
    ensures name in IndustryMap ==> q == DataFetcher.GetRealtimeQuote(quoteFeed(IndustryMap[name]))
  {
    if name in IndustryMap then DataFetcher.GetRealtimeQuote(quoteFeed(IndustryMap[name])) else None
  }

  /** The AI reply for one industry. */
  function ReplyFor(name: string, quoteFeed: string -> Option<Json.Value>, oracle: AiAnalyzer.Oracle,
                    show: DataFetcher.Quote -> string): string
  {
    AiAnalyzer.CallAi(oracle(AiAnalyzer.CyclicalPrompt(name, QuoteFor(name, quoteFeed), show)))
  }

  /** The loop of lines 117-154: one parsed entry per configured name. */
  function AnalyzeAll(names: seq<string>, quoteFeed: string -> Option<Json.Value>, oracle: AiAnalyzer.Oracle,
                      show: DataFetcher.Quote -> string): (r: seq<Industry>)
    ensures |r| == |names|
    ensures forall i | 0 <= i < |names| ::
      r[i] == Industry(names[i], ParseReply(ReplyFor(names[i], quoteFeed, oracle, show)), None)
  {
    if |names| == 0 then []
    else [Industry(names[0], ParseReply(ReplyFor(names[0], quoteFeed, oracle, show)), None)]
         + AnalyzeAll(names[1..], quoteFeed, oracle, show)
  }

  /** Lines 157-161: charts are attached only when the renderer returned a
      non-empty list with one chart per industry. */
  function AttachCharts(industries: seq<Industry>, charts: Option<seq<string>>): (r: seq<Industry>)
    ensures |r| == |industries|
    ensures forall i | 0 <= i < |r| :: r[i].name == industries[i].name && r[i].fields == industries[i].fields
    ensures charts.Some? && |charts.value| > 0 && |charts.value| == |industries| ==>
      forall i | 0 <= i < |r| :: r[i].chart == Some(charts.value[i])
    ensures !(charts.Some? && |charts.value| > 0 && |charts.value| == |industries|) ==>
      r == industries
  {
    if charts.Some? && |charts.value| > 0 && |charts.value| == |industries| then
      seq(|industries|, i requires 0 <= i < |industries| => industries[i].(chart := Some(charts.value[i])))
    else
      industries
  }

  /** `analyze_cyclical_industries()`: one entry per configured industry, in
      configured order; `render` stands for `generate_cyclical_chart_base64`. */
  function AnalyzeIndustries(names: seq<string>, quoteFeed: string -> Option<Json.Value>,
                             oracle: AiAnalyzer.Oracle, show: DataFetcher.Quote -> string,
                             render: seq<Industry> -> Option<seq<string>>): (r: seq<Industry>)
    ensures |r| == |names|
    ensures forall i | 0 <= i < |names| ::
      r[i].name == names[i] && r[i].fields == ParseReply(ReplyFor(names[i], quoteFeed, oracle, show))
    ensures (forall i | 0 <= i < |r| :: r[i].chart.Some?) || (forall i | 0 <= i < |r| :: r[i].chart.None?)
  {
    var parsed := AnalyzeAll(names, quoteFeed, oracle, show);
    AttachCharts(parsed, render(parsed))
  }

  // ---------------------------------------------------------------- chart position

  /** `s[i..j]` is a run of ASCII digits followed by `%` at `j`: the regex
      `(\d+)%` matches at `i` with group `s[i..j]`. */
  predicate PercentRun(s: string, i: int, j: int) {
    0 <= i < j < |s| && AllDigits(s[i..j]) && s[j] == '%'
  }

  /** No match of `(\d+)%` starts before `k`. */
  predicate NoPercentRunBefore(s: string, k: int) {
    forall i, j | 0 <= i < k && i < j < |s| :: !PercentRun(s, i, j)
  }

  /** `re.search(r'(\d+)%', s)`: the leftmost match, as the span of its
      digit group. */
  method SearchPercent(s: string) returns (found: bool, i: nat, j: nat)
    ensures found ==> PercentRun(s, i, j) && NoPercentRunBefore(s, i)
    ensures !found ==> NoPercentRunBefore(s, |s|)
  {
    var k := 0;
    while k < |s|
      invariant 0 <= k <= |s|
      invariant NoPercentRunBefore(s, k)
    {
      if IsDigit(s[k]) {
        var e := k + 1;
        while e < |s| && IsDigit(s[e])
          invariant k < e <= |s|
          invariant AllDigits(s[k..e])
        {
          assert s[k..e + 1] == s[k..e] + [s[e]];
          e := e + 1;
        }
        if e < |s| && s[e] == '%' {
          return true, k, e;
        }
        forall a, b | k <= a < e && a < b < |s|
          ensures !PercentRun(s, a, b)
        {
        }
        k := e;
      } else {
        assert forall b | k < b < |s| :: s[k] == s[k..b][0];
        k := k + 1;
      }
    }
    return false, 0, 0;
  }

  const BottomWords := ["底部", "下行", "衰退"]
  const RecoveryWords := ["复苏", "启动"]
  const RisingWords := ["上升", "成长"]
  const TopWords := ["顶部", "见顶", "高位"]
  const FallingWords := ["回落", "调整", "政策驱动"]

  /** The keyword groups tried in order, each with its chart position. */
  const Ladder: seq<(seq<string>, real)> := [
    (BottomWords, 0.1), (RecoveryWords, 0.25), (RisingWords, 0.5), (TopWords, 0.8), (FallingWords, 0.6)
  ]
  const DefaultPosition: real := 0.3

  predicate MentionsAny(phase: string, words: seq<string>) {
    exists w | w in words :: Contains(phase, w)
  }

  /** Index of the first keyword group the phase mentions, or `|Ladder|`. */
  function FirstGroup(phase: string, from: nat): (k: nat)
    requires from <= |Ladder|
    ensures from <= k <= |Ladder|
    ensures k < |Ladder| ==> MentionsAny(phase, Ladder[k].0)
    ensures forall g | from <= g < k :: !MentionsAny(phase, Ladder[g].0)
    decreases |Ladder| - from
  {
    if from == |Ladder| then from
    else if MentionsAny(phase, Ladder[from].0) then from
    else FirstGroup(phase, from + 1)
  }

  /** Lines 46-58: the position of the first keyword group the phase
      mentions, or 0.3 when it mentions none. */
  function PhasePosition(phase: string): (pos: real)
    ensures var k := FirstGroup(phase, 0); k < |Ladder| ==> pos == Ladder[k].1
    ensures (forall g | 0 <= g < |Ladder| :: !MentionsAny(phase, Ladder[g].0)) <==> pos == DefaultPosition
  {
    var k := FirstGroup(phase, 0);
    if k < |Ladder| then Ladder[k].1 else DefaultPosition
  }

  /** Lines 37-58 of `generate_cyclical_chart_base64`: the first `N%` in the
      cycle position gives N / 100; otherwise the phase keywords decide. */
  method ChartPosition(industry: Industry) returns (pos: real)
    ensures var s := industry.fields.position;
      forall i, j | PercentRun(s, i, j) && NoPercentRunBefore(s, i) :: pos == DigitsValue(s[i..j]) as real / 100.0
    ensures NoPercentRunBefore(industry.fields.position, |industry.fields.position|) ==>
      pos == PhasePosition(industry.fields.phase)
  {
    var s := industry.fields.position;
    var found, i, j := SearchPercent(s);
    if found {
      pos := DigitsValue(s[i..j]) as real / 100.0;
      forall i', j' | PercentRun(s, i', j') && NoPercentRunBefore(s, i')
        ensures i' == i && j' == j
      {
      }
    } else {
      pos := PhasePosition(industry.fields.phase);
    }
  }
}
