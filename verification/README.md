# mystock report pipeline — a Dafny model

This project models the deterministic core of a daily stock-report pipeline. The pipeline:

1. fetches quotes, klines, money flow and sector rankings from a quote provider;
2. asks an AI command-line tool for commentary on each target;
3. parses the structured cyclical-industry answers;
4. assembles one Markdown report, gating the AI calls on whether any data arrived.

It also models a separate Hang Seng Tech (HSTECH) analyser, which has its own retry loop, indicators and rule-based fallback, and the configuration resolver.

Every network request, subprocess run, clock reading and file access is a parameter of the model:
- a decoded JSON response is `Option<Json.Value>`, and `None` means the request or the JSON decoding raised;
- the AI subprocess outcome is the `AiAnalyzer.Process` datatype;
- the AI is an `AiAnalyzer.Oracle`, a function from the prompt to the subprocess outcome, so within one model run the same prompt always gets the same answer;
- every clock reading is a separate string: the run's report date, its footer timestamp and the date `save_report` reads again for the file name, and the two dates each target report reads again for its history and money-flow `[TODAY]` markers (`StockAnalyzer.Inputs.markers`, one pair per target);
- `float()`, `json.loads` and the `:.2f`-style formatters are abstract functions.

A Python exception that escapes a function becomes `Result.Failure`. Where the source swallows an exception, the model returns `None`, as the source does.

Modules, one per source file plus shared helpers:

- `Wrappers` — `Option` and `Result`.
- `Text` — Python string operations: `strip`, `split`, `join`, `replace`, `find`, slicing, `str(int)`.
- `Json` — decoded values with Python truthiness and `dict.get`.
- `Sorting` — the stable `sort(key=..., reverse=True)` on date strings.
- `DataFetcher` (`analyzer/data_fetcher.py`).
- `AiAnalyzer` (`analyzer/ai_analyzer.py`).
- `Cyclical` (`analyzer/cyclical_analyzer.py`).
- `ReportGenerator` (`analyzer/report_generator.py`).
- `StockAnalyzer` (`analyzer/stock_analyzer.py`).
- `Hstech` (`analyzer/hstech_analyzer.py`).
- `Config` (`analyzer/config_manager.py`).

Five behaviours of the code shape the model:

- **No refusal detection.** There is no refusal classifier. A successful AI run's stripped output is used as is.
- **Failure texts are passed through.** Starred failure texts such as `*AI 分析超时*` go into the report. They do not trigger a fallback.
- **The rule-based fallback exists only in the HSTECH analyser.** It is used only when the AI text is empty.
- **The main run can fail as a whole.** A non-numeric turnover, or a non-numeric sector change or flow, raises in the report builders, and nothing catches it there. The model's `Run` then ends `Crashed`, and nothing is saved or sent.
- **The HSTECH fallback can raise.** With fewer than 250 bars it raises, and so does `analyze` when the AI text is empty; see Findings.

## Model

| member | source | states |
|---|---|---|
| DataFetcher.DashOrNumber | analyzer/data_fetcher.py:37-40 | a `-` column reads as 0; any other column goes through `float()` |
| DataFetcher.ParseBar | analyzer/data_fetcher.py:28-41 | a kline parses iff it has at least 11 comma fields and every numeric column parses; the date is field 0; columns 1-6 are `float()` and columns 7-10 read `-` as 0 |
| DataFetcher.ParseFlow | analyzer/data_fetcher.py:97-105 | a flow line parses iff it has at least 6 fields and all five buckets parse, each reading `-` as 0; the date is field 0 |
| DataFetcher.ParseLines | analyzer/data_fetcher.py:26-42 | the line loop succeeds iff every item is a string that parses; the result has one record per item, in order |
| DataFetcher.KeptKlines | analyzer/data_fetcher.py:23-24 | the kept items are `klines[-days:]` of the guarded `data.data.klines` |
| DataFetcher.KeptKlinesAreLastDays | analyzer/data_fetcher.py:24 | for days ≥ 1 exactly the last min(days, n) klines are kept, in provider order |
| DataFetcher.GetIndexHistory | analyzer/data_fetcher.py:9-46 | a result iff the guard passes and every kept kline is a string that parses; then bar i is the parse of kept kline i, in order; `None` when there are no klines |
| DataFetcher.GetMoneyFlow | analyzer/data_fetcher.py:78-110 | a result iff the guard passes and every kept line is a string that parses; then record i is the parse of kept line i, in order |
| DataFetcher.Scaled | analyzer/data_fetcher.py:63-69 | a missing field is 0; a numeric one is divided by the divisor; a non-numeric one raises (`None`) |
| DataFetcher.GetRealtimeQuote | analyzer/data_fetcher.py:48-76 | a result iff `data` is a truthy dict whose seven price fields are missing or numeric; those fields are the raw values divided by 100; volume and turnover are passed through raw, with missing counting as 0 |
| DataFetcher.JsonpBody | analyzer/data_fetcher.py:126-128 | the text from the first `{` through the last `}`, with no earlier `{` and no later `}` |
| DataFetcher.SectorOf | analyzer/data_fetcher.py:135-140 | each key falls back to its default: name `""`, numbers 0 |
| DataFetcher.SectorsOf | analyzer/data_fetcher.py:133-141 | one sector per item, in order, iff every item is a dict |
| DataFetcher.GetSectorData | analyzer/data_fetcher.py:112-146 | a result iff the body parses, the guarded `data.diff` list exists and every entry is a dict; then the first min(5, n) entries, in provider order |
| DataFetcher.IsTradingDay | analyzer/data_fetcher.py:148-157 | always true |
| AiAnalyzer.CallAi | analyzer/ai_analyzer.py:4-26 | exit 0 gives the stripped stdout; a non-zero exit, a missing binary, a timeout or another error each give their exact starred text; every non-success text is starred |
| AiAnalyzer.CallAiEmptyIffBlankSuccess | analyzer/ai_analyzer.py:17-26 | the AI text is empty iff the process exited 0 with all-whitespace stdout |
| AiAnalyzer.TargetPrompt | analyzer/ai_analyzer.py:28-40 | the prompt embeds the name and the data verbatim inside the fixed template |
| AiAnalyzer.SummaryPrompt | analyzer/ai_analyzer.py:42-53 | the prompt embeds the full content verbatim inside the fixed template |
| AiAnalyzer.TargetPromptIsNotSummary | analyzer/ai_analyzer.py:30-44 | no per-target prompt opens like the summary prompt |
| AiAnalyzer.QuoteParagraph | analyzer/ai_analyzer.py:57 | `实时行情数据: <data>` when there is a quote, otherwise the fixed no-data sentence |
| AiAnalyzer.CyclicalPrompt | analyzer/ai_analyzer.py:55-74 | the prompt embeds the industry name and the quote paragraph and ends with the four-label answer format |
| Cyclical.ApplyLine | analyzer/cyclical_analyzer.py:142-152 | a line whose cleaned form (with `**` removed and stripped) opens with a label sets only that label's field to the label-stripped value; any other line changes nothing |
| Cyclical.LabelsExclusive | analyzer/cyclical_analyzer.py:145-151 | at most one of the four labels can open a line, so the `elif` order never matters |
| Cyclical.ParseReply | analyzer/cyclical_analyzer.py:131-152 | without `当前周期` in the reply, the fields stay `未知` and the analysis is the raw reply; otherwise every line is applied, in order |
| Cyclical.LastOccurrenceWins | analyzer/cyclical_analyzer.py:141-152 | each field equals the value of the LAST line carrying its label, or its default when no line does |
| Cyclical.CleanPlainLine | analyzer/cyclical_analyzer.py:144 | a trimmed line without `*` is left unchanged by cleaning |
| Cyclical.TaggedValue | analyzer/cyclical_analyzer.py:146-152 | removing the label from `label value` leaves exactly `value` |
| Cyclical.LabelledLine | analyzer/cyclical_analyzer.py:144-152 | an answer line `label value` cleans to itself and yields `value` |
| Cyclical.ApplyLabelled | analyzer/cyclical_analyzer.py:145-152 | one labelled answer line sets exactly its own field to the value |
| Cyclical.ApplyAnswerLines | analyzer/cyclical_analyzer.py:141-152 | the four answer lines in the requested format fill the four fields |
| Cyclical.ParseAnswerReply | analyzer/cyclical_analyzer.py:131-152 | a reply in exactly the requested format parses to its four values, e.g. 底部 / 拐点 / 3个月 / 测试 |
| Cyclical.QuoteFor | analyzer/cyclical_analyzer.py:121-124 | industries missing from `INDUSTRY_MAP` get no quote; mapped ones get the fetched quote of their sector id |
| Cyclical.AnalyzeAll | analyzer/cyclical_analyzer.py:114-154 | one entry per configured name, in configured order, named after it, with the parsed AI reply |
| Cyclical.AttachCharts | analyzer/cyclical_analyzer.py:157-161 | charts are attached to every entry when their count matches, otherwise to none; nothing else changes |
| Cyclical.AnalyzeIndustries | analyzer/cyclical_analyzer.py:111-163 | one entry per industry, in order, and either all or none carry a chart |
| Cyclical.SearchPercent | analyzer/cyclical_analyzer.py:41 | finds the leftmost run of digits followed by `%`, or reports that none exists |
| Cyclical.FirstGroup | analyzer/cyclical_analyzer.py:47-58 | the first keyword group the phase mentions; no earlier group matches |
| Cyclical.PhasePosition | analyzer/cyclical_analyzer.py:46-58 | the first matching group gives 0.1 / 0.25 / 0.5 / 0.8 / 0.6; 0.3 iff no group matches |
| Cyclical.ChartPosition | analyzer/cyclical_analyzer.py:37-58 | the first `N%` in the cycle position gives N/100; otherwise the phase keyword ladder applies |
| Sorting.Insert | analyzer/report_generator.py:37 | inserting into a newest-first list keeps it newest first and is a permutation |
| Sorting.NewestFirst | analyzer/report_generator.py:37 | the sorted list is a permutation of the input and has descending dates |
| Sorting.NewestFirstOfDescending | analyzer/report_generator.py:37 | an already newest-first list is returned unchanged |
| Sorting.NewestFirstStable | analyzer/report_generator.py:37 | records with equal dates keep their input order (the sort is stable) |
| ReportGenerator.DateCell | analyzer/report_generator.py:44-47 | the cell gets `[TODAY]` exactly when the date equals today; otherwise it is unchanged |
| ReportGenerator.HistoryRow | analyzer/report_generator.py:49-51 | a row opens with its date cell |
| ReportGenerator.FlowRow | analyzer/report_generator.py:72-75 | a row opens with its date cell |
| ReportGenerator.HistoryOrder | analyzer/report_generator.py:37 | the printed records are a permutation of the fetched ones, newest first |
| ReportGenerator.FlowOrder | analyzer/report_generator.py:61 | the printed records are a permutation of the fetched ones, newest first |
| ReportGenerator.RealtimeBlock | analyzer/report_generator.py:21-30 | the placeholder block when there is no quote; the four formatted lines otherwise; raises iff the turnover is not numeric |
| ReportGenerator.HistoryBlock | analyzer/report_generator.py:33-54 | title, header, separator, then one row per record newest first, then a blank line; or title, placeholder, blank |
| ReportGenerator.FlowBlock | analyzer/report_generator.py:57-78 | same shape for money flow |
| ReportGenerator.RealtimePlaceholder | analyzer/report_generator.py:23-29 | the placeholder appears iff the quote is missing; no other line starts with `*` |
| ReportGenerator.HistoryPlaceholder | analyzer/report_generator.py:35-53 | the placeholder appears iff there are no records; no other line starts with `*` |
| ReportGenerator.FlowPlaceholder | analyzer/report_generator.py:59-77 | the placeholder appears iff there are no records; no other line starts with `*` |
| ReportGenerator.TargetLines | analyzer/report_generator.py:15-78 | heading, blank, then the realtime, history and flow blocks, in that order; each table marks rows with the date of its own clock reading |
| ReportGenerator.TargetReport | analyzer/report_generator.py:10-80 | the text is the lines joined by newlines; the status holds the fetched lists, sorted when rendered |
| ReportGenerator.StatusMatchesTables | analyzer/report_generator.py:80 | the status is non-empty iff its table was rendered, and it holds exactly the fetched records |
| ReportGenerator.TargetPlaceholders | analyzer/report_generator.py:15-80 | in the whole target report each placeholder appears iff its data is missing |
| ReportGenerator.SectorRow | analyzer/report_generator.py:95-98 | a row renders iff change and flow are numeric |
| ReportGenerator.SectorRows | analyzer/report_generator.py:95-98 | one row per sector, in input order, unless some row raises |
| ReportGenerator.SectorLines | analyzer/report_generator.py:84-101 | the placeholder exactly when there are no sectors; otherwise the title, header and rows |
| ReportGenerator.SectorReport | analyzer/report_generator.py:82-103 | raises iff a sector row raises; the text opens with the section heading, and when no line holds a newline, splitting it at newlines gives back exactly the sector lines |
| ReportGenerator.SectorTableShape | analyzer/report_generator.py:89-100 | one table row per sector, in order, and no placeholder, exactly when there are sectors |
| ReportGenerator.IndustryBlock | analyzer/report_generator.py:114-128 | heading, then the image and a blank line only when there is a chart, then phase, duration, position, analysis and a blank line |
| ReportGenerator.IndustryBlocks | analyzer/report_generator.py:114-128 | the `### ` lines of the blocks are exactly `### <name> 行业` for each industry, in input order |
| ReportGenerator.CyclicalLines | analyzer/report_generator.py:107-131 | the placeholder iff the result is missing or empty; otherwise the blocks |
| ReportGenerator.CyclicalReport | analyzer/report_generator.py:105-133 | the text opens with the section heading, and when no line holds a newline, splitting it at newlines gives back exactly the cyclical lines |
| ReportGenerator.IndustryBlockHeadings | analyzer/report_generator.py:115 | the only `### ` line of a block is its own industry heading |
| ReportGenerator.CyclicalHeadings | analyzer/report_generator.py:113-130 | the section's `### ` lines are `### <name> 行业` for each industry in input order, or there are none and the placeholder stands in |
| StockAnalyzer.TargetSection | analyzer/stock_analyzer.py:52-70 | five parts per target: report, AI heading, AI text or placeholder, blank, `---`; the flag is the line-58 test; the AI is asked only when that test holds |
| StockAnalyzer.Loop | analyzer/stock_analyzer.py:52-70 | the loop fails iff some pass fails; part 5i+k is part k of pass i; the flag is the OR of the passes' flags; the prompts are the passes' prompts concatenated in pass order |
| StockAnalyzer.LoopRaisesFirstFailure | analyzer/stock_analyzer.py:52-70 | a failing loop re-raises what the first failing pass raised, and every earlier pass succeeded |
| StockAnalyzer.LoopPrompts | analyzer/stock_analyzer.py:57-62 | every prompt of every pass is sent, and nothing else |
| StockAnalyzer.Passes | analyzer/stock_analyzer.py:52 | one pass per target, in `TARGETS` order |
| StockAnalyzer.Run | analyzer/stock_analyzer.py:32-109 | skipped iff not a trading day; crashed iff a report builder raises; otherwise the report is the parts plus the summary heading and summary, joined, plus the footer; it is saved under `<date>_多标的分析报告.md` for the date `save_report` reads, and mailed with the subject dated by the run's date; target i's tables are marked with target i's own clock readings |
| StockAnalyzer.NeverSkipped | analyzer/stock_analyzer.py:34-36 | with the provider's calendar check the run never skips |
| StockAnalyzer.SectionOrder | analyzer/stock_analyzer.py:42-92 | the title block, five parts per target, the sector report, then the cyclical report, in that order |
| StockAnalyzer.AnyValidIffSomeData | analyzer/stock_analyzer.py:50-59 | `has_any_valid_data` is true iff some target has non-empty history or money flow |
| StockAnalyzer.TargetAiGate | analyzer/stock_analyzer.py:57-68 | target i's AI text is the AI answer to its prompt when it has data, otherwise exactly `*因数据获取失败，无法进行 AI 分析*` |
| StockAnalyzer.LoopSendsNoSummary | analyzer/stock_analyzer.py:57-62 | the target loop never sends a summary prompt |
| StockAnalyzer.SummaryAskedIffData | analyzer/stock_analyzer.py:83-89 | a summary prompt is sent iff some target has data; otherwise the summary is exactly `*因数据获取失败，无法进行综合总结*` |
| StockAnalyzer.SummarySeesEverythingBefore | analyzer/stock_analyzer.py:85-86 | the summary prompt embeds exactly the parts before the summary heading, joined by newlines |
| Hstech.GetRealtimeData | analyzer/hstech_analyzer.py:75-112 | a quote iff `data` is a truthy dict whose price fields are missing or numeric; price fields are the raw values divided by 100, missing as 0 |
| Hstech.ParseHBar | analyzer/hstech_analyzer.py:134-144 | a kline parses iff it has at least 7 fields and columns 1-6 parse; the date is field 0 |
| Hstech.Frame | analyzer/hstech_analyzer.py:131-151 | one attempt yields a frame iff the guard passes and every kline is a string that parses; the frame holds every kline's bar, in order, and is non-empty |
| Hstech.FirstSome | analyzer/hstech_analyzer.py:118-166 | the retry loop: the first attempt that yields a frame wins, and no earlier attempt did; `None` iff none of the remaining attempts does |
| Hstech.Attempts | analyzer/hstech_analyzer.py:118-151 | one outcome per attempt, `MaxRetries` of them, each the frame of that attempt's response |
| Hstech.GetHistoryData | analyzer/hstech_analyzer.py:114-168 | at most 3 attempts; the result is the first successful attempt's frame, non-empty; `None` iff all 3 fail |
| Hstech.RetryIsBounded | analyzer/hstech_analyzer.py:73-118 | providers that agree on the first 3 attempts give the same result; a 4th attempt is never made |
| Hstech.RetryOutcomes | analyzer/hstech_analyzer.py:118-168 | a successful first attempt is used as is; three failures give `None` |
| Hstech.RecentHigh | analyzer/hstech_analyzer.py:175 | the largest high among the last min(20, n) bars, and one of them |
| Hstech.RecentLow | analyzer/hstech_analyzer.py:176 | the smallest low among the last min(20, n) bars, and one of them |
| Hstech.Ma250 | analyzer/hstech_analyzer.py:174 | defined iff there are at least 250 bars |
| Hstech.Ma250WithinCloses | analyzer/hstech_analyzer.py:174 | the 250-day mean lies between the lowest and highest of the closes it averages |
| Hstech.RecentLowBelowHigh | analyzer/hstech_analyzer.py:175-176 | when every bar has low ≤ high, the recent low ≤ the recent high |
| Hstech.IndicatorsOf | analyzer/hstech_analyzer.py:170-179 | the three indicators of a non-empty frame |
| Hstech.AnalystPrompt | analyzer/hstech_analyzer.py:202-228 | the prompt embeds the data summary verbatim between the fixed opening and requirements |
| Hstech.Trunc | analyzer/hstech_analyzer.py:255-258 | `int(x)` truncates toward zero: the result is within 1 of x, on x's side of 0 |
| Hstech.TruncMonotone | analyzer/hstech_analyzer.py:255-258 | truncation preserves ≤ |
| Hstech.LevelsOf | analyzer/hstech_analyzer.py:255-258 | the aggressive range is int(0.98·p) to int(0.99·p), steady is int(low), stop is int(0.97·low), platform is int(1.05·high) |
| Hstech.LevelsOrdered | analyzer/hstech_analyzer.py:255-258 | for non-negative prices: stop ≤ steady; aggressive low ≤ aggressive high ≤ int(price); with low ≤ high, steady ≤ int(high) ≤ platform |
| Hstech.FallbackText | analyzer/hstech_analyzer.py:260-280 | the text opens with the technical-analysis heading and contains the second support line `2. <mean> 点（250 日均线）`, the platform line `2. <int(1.05·high)> 点（前期平台）` and the advice lines quoting the integer levels |
| Hstech.Indicated | analyzer/hstech_analyzer.py:197-199 | the indicators are computed iff the frame exists and is non-empty; otherwise the computation raises |
| Hstech.FallbackAsWritten | analyzer/hstech_analyzer.py:245-282 | as written, the fallback produces text iff the frame has at least 250 bars; the text then holds the support line with `int(ma250)` and the platform line |
| Hstech.FallbackAsWrittenFailsOnShortHistory | analyzer/hstech_analyzer.py:268 | any non-empty frame shorter than 250 bars makes the as-written fallback raise, while the corrected one succeeds |
| Hstech.Fallback | analyzer/hstech_analyzer.py:245-282 | the corrected fallback produces text iff the frame is non-empty; the text holds the advice levels and the platform line, and its second support line is `2. nan 点（250 日均线）` below 250 bars and quotes `int(ma250)` from 250 on |
| Hstech.FallbackAgreesWhenDefined | analyzer/hstech_analyzer.py:266-268 | wherever the as-written fallback succeeds, the corrected one gives the same text |
| Hstech.Analyze | analyzer/hstech_analyzer.py:188-243 | raises iff the frame is missing or empty, or the AI text is empty over fewer than 250 bars; a result is never empty |
| Hstech.AnalyzeCorrected | analyzer/hstech_analyzer.py:188-243 | over the corrected fallback: raises iff the frame is missing or empty; a result is never empty |
| Hstech.AnalyzeCorrectedExtends | analyzer/hstech_analyzer.py:231-243 | wherever the code as written answers, the corrected analysis gives the same answer, and it answers on every usable frame |
| Hstech.AnalyzeRaisesOnBlankShortHistory | analyzer/hstech_analyzer.py:237-243 | a blank AI reply over 1 to 249 bars makes `analyze` raise, where the corrected analysis gives the rule-based text |
| Hstech.AnalyzeUsesAiUnlessBlank | analyzer/hstech_analyzer.py:231-239 | the AI text is returned unchanged, starred failure texts included, unless the AI succeeded with blank output; exactly then the outcome is the as-written fallback's |
| Hstech.QuoteFromBars | analyzer/hstech_analyzer.py:502-510 | the built quote has change 0; latest, open, high and low come from the last bar; the previous close is the second-last close when there are at least 2 bars, else the last close |
| Hstech.QuickQuote | analyzer/hstech_analyzer.py:495-510 | a quote iff there is a realtime quote or a 5-day frame; the realtime quote when there is one |
| Hstech.QuickHistory | analyzer/hstech_analyzer.py:512-514 | a frame iff the 365-day or the 30-day fetch yields one; the 365-day frame when there is one |
| Hstech.QuickAnalysis | analyzer/hstech_analyzer.py:484-524 | raises `无法获取任何数据` without a quote and without a 5-day frame; succeeds iff a quote and a frame exist and the frame has at least 250 bars or the AI text is not empty |
| Hstech.QuickAnalysisSources | analyzer/hstech_analyzer.py:495-517 | the analysis runs on the realtime quote or the last-bar quote, over the 365-day frame or else the 30-day one |
| Hstech.FullReportOf | analyzer/hstech_analyzer.py:439-470 | over a usable frame: succeeds iff the as-written analysis answers and the chart, when asked for, does not raise; then carries the frame, its indicators (low ≤ high for well-formed bars) and that analysis |
| Hstech.GenerateFullReport | analyzer/hstech_analyzer.py:408-482 | raises when the realtime quote or the 365-day frame is missing; otherwise succeeds iff the frame has at least 250 bars or the AI text is not empty, and the chart, when asked for, does not raise |
| Config.HeaderDict | analyzer/config_manager.py:46-49 | exactly the `User-Agent` and `Referer` headers with the given values |
| Config.Lookup | analyzer/config_manager.py:24-51 | a file attribute or environment variable when present, its default otherwise |
| Config.Resolve | analyzer/config_manager.py:11-39 | a loaded file gives the file settings; a missing or failing file gives the environment settings |
| Config.LoadedIgnoresEnv | analyzer/config_manager.py:16-32 | with a loaded file the environment is never consulted; each key is its attribute or its default |
| Config.WithoutFileUsesEnv | analyzer/config_manager.py:33-51 | a missing file and a broken file resolve alike; each key comes from the environment or its default |
| Config.IndustriesFromEnv | analyzer/config_manager.py:32-51 | the environment industries are the comma-split of the variable, which rejoins to the variable; both paths default to `["军工"]` |
| Config.ReportsDir | analyzer/config_manager.py:69-75 | the configured path when truthy, otherwise `<home>/stock-reports/reports` |
| Config.ReportsDirDefault | analyzer/config_manager.py:31-75 | an unset `REPORTS_DIR` gives the home default on both paths; a set one is used as is |

## Left out

- `analyzer/notifier.py` (SMTP delivery and HTML styling) and `analyzer/config_example.py` (constants only) are not part of this model.
- Chart rendering is not modelled: matplotlib, numpy and base64 in `generate_cyclical_chart_base64` and `HSTECHChartGenerator`. Chart payloads are opaque strings, and only the position mapping is modelled.
- HTTP, the subprocess call, `time.sleep`, logging, printing, `datetime.now()`, the report file write, `mkdir` and the e-mail send are not modelled. Their results are parameters.
- Float arithmetic uses Dafny `real`. The `:.2f`, `:+.2f` and `:.0f` formatters are abstract functions. The model claims no IEEE rounding fidelity, and NaN or infinite inputs from the provider are not modelled.
- Cyclical.SearchPercent: only ASCII digits count as `\d`. Python's `re` also matches other Unicode decimal digits.
- Cyclical.ChartPosition: `int()` of the matched digits is read with its ASCII value. The chart is not drawn.
- StockAnalyzer.Run: the cyclical section takes the result of `analyze_cyclical_industries()` as an input, so the AI prompts sent inside that call are not listed in the run's prompts. They are modelled in `Cyclical.AnalyzeIndustries`.
- Hstech.Frame: a truthy dict under `klines` is treated as a failed attempt. Python would iterate its keys as lines.
- Hstech.Frame: the `pd.to_datetime` conversion of dates is not modelled. Dates stay text, and a date pandas cannot parse does not fail the attempt.
- Hstech.GenerateFullReport: the chart path, chart Base64, `MA250` column and timestamp are left out of the result. The chart is modelled only by whether its generation raised.
- Hstech.GetRealtimeData: `涨跌额`, `成交量` and `成交额` are not carried in the quote. The analysis never reads them.
- The demo `main()` of `analyzer/hstech_analyzer.py`, which only prints, is not modelled.
- Config.ReportsDir: the path is kept as text. `pathlib` normalisation (for example of trailing slashes) is not modelled.
- Config.Resolve: module attributes are modelled as JSON-like values. Arbitrary Python objects in `config.py` are not.

## Findings

| source | as written | input that shows it | evidently intended | confidence | as-written member | corrected member |
|---|---|---|---|---|---|---|
| analyzer/hstech_analyzer.py:268 | The second support level is printed as `int(ma250)`. The mean is NaN with fewer than 250 bars, and `int` of NaN raises ValueError. This escapes `analyze`, because its `except` branch calls the same fallback. | A blank AI reply over a frame of fewer than 250 bars, for example the 40 klines of the 30-day retry in `get_quick_analysis`. | The fallback always produces its text; the undefined mean prints as `nan`, like `{ma250:.2f}` three lines earlier. | medium, not executed | Hstech.FallbackAsWritten and Hstech.Analyze (shown by Hstech.FallbackAsWrittenFailsOnShortHistory and Hstech.AnalyzeRaisesOnBlankShortHistory) | Hstech.Fallback and Hstech.AnalyzeCorrected (Hstech.FallbackAgreesWhenDefined, Hstech.AnalyzeCorrectedExtends) |

`Hstech.QuickAnalysis` and `Hstech.GenerateFullReport` are stated over the analysis as written, so they raise in the case above too.
