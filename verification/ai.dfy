/** The AI command-line client (analyzer/ai_analyzer.py): classification of
    how the `qodercli -p <prompt>` subprocess ended into the text the
    pipeline uses, and the three prompt templates. The subprocess itself is
    not modelled; its outcome is the `Process` value. */
module AiAnalyzer {
  import opened Text
  import opened Wrappers
  import DataFetcher

  /** How the subprocess run ended. */
  datatype Process =
    | Exited(code: int, stdout: string, stderr: string)  // ran to completion
    | BinaryMissing                                      // FileNotFoundError
    | TimedOut                                           // TimeoutExpired after TimeoutSeconds
    | Raised(message: string)                            // any other exception, as str(e)

  /** The AI as the pipeline sees it: how the subprocess ends for a prompt. */
  type Oracle = string -> Process

  const TimeoutSeconds: nat := 180
  const MissingCliText := "*Qoder CLI 未找到，跳过 AI 分析*"
  const TimeoutText := "*AI 分析超时*"
  const ExitFailurePrefix := "*AI 分析调用失败: "
  const ErrorPrefix := "*AI 分析出错: "

  predicate Succeeded(p: Process) {
    p.Exited? && p.code == 0
  }

  /** Wrapped in `*...*`, the Markdown emphasis every failure text carries. */
  predicate Starred(s: string) {
    |s| >= 2 && s[0] == '*' && s[|s| - 1] == '*'
  }

  /** `call_ai(prompt)` given how the subprocess ended: the stripped output on
      a zero exit, otherwise a starred diagnostic. It never raises. */
  function CallAi(p: Process): (r: string)
    ensures Succeeded(p) ==> Trimmed(r) && r == Strip(p.stdout)
    ensures p.Exited? && p.code != 0 ==> r == ExitFailurePrefix + p.stderr + "*"
    ensures p.BinaryMissing? ==> r == MissingCliText
    ensures p.TimedOut? ==> r == TimeoutText
    ensures p.Raised? ==> r == ErrorPrefix + p.message + "*"
    ensures !Succeeded(p) ==> Starred(r)
  {
    match p
    case Exited(code, out, err) =>
      if code == 0 then Strip(out) else ExitFailurePrefix + err + "*"
    case BinaryMissing => MissingCliText
    case TimedOut => TimeoutText
    case Raised(msg) => ErrorPrefix + msg + "*"
  }

  /** The AI text is empty exactly when the process succeeded with nothing
      but whitespace on stdout; every failure yields non-empty text. */
  lemma CallAiEmptyIffBlankSuccess(p: Process)
    ensures CallAi(p) == "" <==> Succeeded(p) && AllSpace(p.stdout)
  {
    if Succeeded(p) {
      StripEmptyIffAllSpace(p.stdout);
    }
  }

  /** `r` is `head`, then `body` verbatim, then `tail`. */
  predicate Embeds(r: string, head: string, body: string, tail: string) {
    && |r| == |head| + |body| + |tail|
    && r[..|head|] == head
    && r[|head|..|head| + |body|] == body
    && r[|head| + |body|..] == tail
  }

  lemma EmbedsConcat(head: string, body: string, tail: string)
    ensures Embeds(head + body + tail, head, body, tail)
  {
    var r := head + body + tail;
    assert r[..|head|] == head;
    assert r[|head|..|head| + |body|] == body;
    assert r[|head| + |body|..] == tail;
  }

  // ---------------------------------------------------------------- per-target prompt

  const TargetOpening := "你是我的资本市场分析助手，" + "拥有丰富的炒股实战经验，尤其对A股市场风格有深刻的理解。请基于以下 "
  const TargetAfterName := " 的市场数据，给出专业的投资分析和可落地的实施方案建议：\n\n"
  const TargetClosing := "\n\n分析要求：\n1. 简述近期走势（根据3天行情判断）\n2. 解读主力资金动向\n3. 结合A股市场特点，给出具体可操作的实施方案建议\n\n请用中文回答，保持客观专业，控制在200字以内。"

  /** The prompt of `ai_analyze_target(name, data)`. */
  function TargetPrompt(name: string, data: string): (r: string)
    ensures Embeds(r, TargetOpening + name + TargetAfterName, data, TargetClosing)
  {
    EmbedsConcat(TargetOpening + name + TargetAfterName, data, TargetClosing);
    TargetOpening + name + TargetAfterName + data + TargetClosing
  }

  // ---------------------------------------------------------------- summary prompt

  const SummaryOpening := "请基于以下多标的分析数据，" + "进行一个简短的市场综合总结：\n    \n"
  const SummaryClosing := "\n\n总结要求：\n1. 概括当前整体市场情绪（结合各标的表现）\n2. 提醒潜在的系统性风险或机会\n\n请用中文回答，专业干练，控制在150字以内。"

  /** The prompt of `ai_analyze_summary(full_content)`. */
  function SummaryPrompt(content: string): (r: string)
    ensures Embeds(r, SummaryOpening, content, SummaryClosing)
  {
    EmbedsConcat(SummaryOpening, content, SummaryClosing);
    SummaryOpening + content + SummaryClosing
  }

  /** A per-target prompt never opens like the summary prompt: the two
      templates start with different characters. */
  lemma TargetPromptIsNotSummary(name: string, data: string)
    ensures !StartsWith(TargetPrompt(name, data), SummaryOpening)
  {
    var p := TargetPrompt(name, data);
    assert TargetOpening[0] == '你' && SummaryOpening[0] == '请';
    assert p[0] == (TargetOpening + name + TargetAfterName)[0];
  }

  // ---------------------------------------------------------------- cyclical-industry prompt

  const CyclicalOpening := "你是专业的行业研究员。请对 "
  const CyclicalAfterName := " 行业进行周期性分析。\n    \n"
  const QuotePrefix := "实时行情数据: "
  const NoQuoteText := "暂无实时数据，请根据你的知识储备进行分析。"
  const CyclicalRequirements := "\n\n分析要求：\n1. **当前周期**: 简洁描述（如：下行周期底部区域、政策驱动上升期等）\n2. **周期位置**: 4-6个字（如：底部向上拐点、稳步上升等）\n3. **持续时间**: 预估当前阶段已持续或将持续的时间\n4. **深度分析**: 100字以内的专业行业逻辑分析\n\n请严格按照以下格式回答，不要有任何多余文字：\n"
  /** The four-line answer format the prompt demands. */
  const AnswerFormat := "当前周期: [内容]\n周期位置: [内容]\n持续时间: [内容]\n分析: [内容]"

  /** The data paragraph: the quote's text when a quote was fetched, the
      fixed no-data sentence otherwise. */
  function QuoteParagraph(quote: Option<DataFetcher.Quote>, show: DataFetcher.Quote -> string): (r: string)
    ensures quote.Some? ==> Embeds(r, QuotePrefix, show(quote.value), "")
    ensures quote.None? ==> r == NoQuoteText
  {
    match quote
    case Some(q) =>
      EmbedsConcat(QuotePrefix, show(q), "");
      assert QuotePrefix + show(q) + "" == QuotePrefix + show(q);
      QuotePrefix + show(q)
    case None => NoQuoteText
  }

  /** The prompt of `ai_analyze_cyclical_industry(name, data)`; `show` is
      Python's `str()` of the quote dict. */
  function CyclicalPrompt(name: string, quote: Option<DataFetcher.Quote>, show: DataFetcher.Quote -> string): (r: string)
    ensures Embeds(r, CyclicalOpening + name + CyclicalAfterName, QuoteParagraph(quote, show),
                   CyclicalRequirements + AnswerFormat)
  {
    EmbedsConcat(CyclicalOpening + name + CyclicalAfterName, QuoteParagraph(quote, show),
                 CyclicalRequirements + AnswerFormat);
    CyclicalOpening + name + CyclicalAfterName + QuoteParagraph(quote, show) + (CyclicalRequirements + AnswerFormat)
  }
}
