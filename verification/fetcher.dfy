/** The payload-parsing half of the quote-provider client (analyzer/data_fetcher.py).
    HTTP is not modelled: each fetcher receives the decoded response
    (`None` when the request or `resp.json()` raised), and Python's `float()`
    and `json.loads` are supplied as abstract parsers. Every fetcher returns
    `None` where the source returns `None` or catches an exception. */
module DataFetcher {
  import opened Wrappers
  import opened Text
  import Json

  /** One daily kline: date string plus the ten numeric columns. */
  datatype Bar = Bar(
    date: string,
    open: real, close: real, high: real, low: real,
    volume: real, amount: real,
    amplitude: real, changePct: real, changeAmt: real, turnoverRate: real)

  /** One daily money-flow record: date plus five net-inflow buckets. */
  datatype Flow = Flow(
    date: string,
    main: real, small: real, medium: real, large: real, superLarge: real)

  /** A realtime quote. Price fields are already scaled to units; volume and
      turnover are the provider's raw values, passed through unconverted. */
  datatype Quote = Quote(
    latest: real, changePct: real, changeAmt: real,
    open: real, high: real, low: real, prevClose: real,
    volume: Json.Value, amount: Json.Value)

  /** One row of the sector ranking, holding the provider's raw values. */
  datatype Sector = Sector(name: Json.Value, changePercent: Json.Value, netFlow: Json.Value, rankType: Json.Value)

  /** Python's `float(text)`: `None` when it raises ValueError. */
  type NumberParser = string -> Option<real>

  /** Python's `json.loads(text)`: `None` when it raises. */
  type JsonParser = string -> Option<Json.Value>

  const SectorLimit: nat := 5

  // ---------------------------------------------------------------- line parsing

  /** A column where the provider writes `-` for "no value": that reads as 0,
      anything else goes through `float()`. */
  function DashOrNumber(field: string, num: NumberParser): (r: Option<real>)
    ensures field == "-" ==> r == Some(0.0)
    ensures field != "-" ==> r == num(field)
  {
    if field == "-" then Some(0.0) else num(field)
  }

  /** The ten numeric columns of a split kline line, in column order: the
      six price and volume columns go through `float()`, the last four read
      `-` as 0. */
  function BarColumns(p: seq<string>, num: NumberParser): (c: seq<Option<real>>)
    requires |p| >= 11
    ensures |c| == 10
    ensures forall k | 1 <= k <= 6 :: c[k - 1] == num(p[k])
    ensures forall k | 7 <= k <= 10 :: c[k - 1] == DashOrNumber(p[k], num)
  {
    seq(10, i requires 0 <= i < 10 => if i < 6 then num(p[i + 1]) else DashOrNumber(p[i + 1], num))
  }

  /** Every element wrapped in `Some`. */
  function Somes(xs: seq<real>): (r: seq<Option<real>>)
    ensures |r| == |xs| && forall i | 0 <= i < |xs| :: r[i] == Some(xs[i])
  {
    seq(|xs|, i requires 0 <= i < |xs| => Some(xs[i]))
  }

  /** The numeric fields of a bar, in kline column order. */
  function BarNumbers(b: Bar): seq<real> {
    [b.open, b.close, b.high, b.low, b.volume, b.amount, b.amplitude, b.changePct, b.changeAmt, b.turnoverRate]
  }

  /** The bar of an already split kline line. */
  function BarOfFields(p: seq<string>, num: NumberParser): (r: Option<Bar>)
    ensures r.None? <==> (|p| < 11 || exists k | 0 <= k < 10 :: BarColumns(p, num)[k].None?)
    ensures r.Some? ==> (|p| >= 11 && r.value.date == p[0] && BarColumns(p, num) == Somes(BarNumbers(r.value)))
  {
    if |p| < 11 then None
    else
      var c := BarColumns(p, num);
      if forall k | 0 <= k < 10 :: c[k].Some? then
        var b := Bar(p[0], c[0].value, c[1].value, c[2].value, c[3].value, c[4].value,
                     c[5].value, c[6].value, c[7].value, c[8].value, c[9].value);
        assert c == Somes(BarNumbers(b));
        Some(b)
      else
        None
  }

  /** Parses one kline line `date,open,close,high,low,volume,amount,amplitude,
      change%,change,turnover`. Fewer than eleven fields is an IndexError and
      an unparseable number a ValueError; both give `None`. */
  function ParseBar(line: string, num: NumberParser): (r: Option<Bar>)
    ensures var p := Split(line, ',');
      r.None? <==> (|p| < 11 || exists k | 0 <= k < 10 :: BarColumns(p, num)[k].None?)
    ensures var p := Split(line, ',');
      r.Some? ==> (|p| >= 11 && r.value.date == p[0] && BarColumns(p, num) == Somes(BarNumbers(r.value)))
  {
    BarOfFields(Split(line, ','), num)
  }

  /** The five net-inflow columns of a split money-flow line, each reading
      `-` as 0. */
  function FlowColumns(p: seq<string>, num: NumberParser): (c: seq<Option<real>>)
    requires |p| >= 6
    ensures |c| == 5
    ensures forall k | 1 <= k <= 5 :: c[k - 1] == DashOrNumber(p[k], num)
  {
    seq(5, i requires 0 <= i < 5 => DashOrNumber(p[i + 1], num))
  }

  /** The buckets of a flow record: main, small, medium, large, super-large. */
  function FlowNumbers(f: Flow): seq<real> {
    [f.main, f.small, f.medium, f.large, f.superLarge]
  }

  /** The flow record of an already split money-flow line. */
  function FlowOfFields(p: seq<string>, num: NumberParser): (r: Option<Flow>)
    ensures r.None? <==> (|p| < 6 || exists k | 0 <= k < 5 :: FlowColumns(p, num)[k].None?)
    ensures r.Some? ==> (|p| >= 6 && r.value.date == p[0] && FlowColumns(p, num) == Somes(FlowNumbers(r.value)))
  {
    if |p| < 6 then None
    else
      var c := FlowColumns(p, num);
      if forall k | 0 <= k < 5 :: c[k].Some? then
        var f := Flow(p[0], c[0].value, c[1].value, c[2].value, c[3].value, c[4].value);
        assert c == Somes(FlowNumbers(f));
        Some(f)
      else
        None
  }

  /** Parses one money-flow line `date,main,small,medium,large,super,...`. */
  function ParseFlow(line: string, num: NumberParser): (r: Option<Flow>)
    ensures var p := Split(line, ',');
      r.None? <==> (|p| < 6 || exists k | 0 <= k < 5 :: FlowColumns(p, num)[k].None?)
    ensures var p := Split(line, ',');
      r.Some? ==> (|p| >= 6 && r.value.date == p[0] && FlowColumns(p, num) == Somes(FlowNumbers(r.value)))
  {
    FlowOfFields(Split(line, ','), num)
  }

  /** The `for line in klines: ... line.split(",")` loop: every item must be a
      string (anything else raises AttributeError) that parses; one failure
      discards the whole list. */
  function ParseLines<T>(items: seq<Json.Value>, parse: string -> Option<T>): (r: Option<seq<T>>)
    ensures r.Some? <==> forall i | 0 <= i < |items| :: items[i].Str? && parse(items[i].s).Some?
    ensures r.Some? ==> (|r.value| == |items|
      && forall i | 0 <= i < |items| :: items[i].Str? && parse(items[i].s) == Some(r.value[i]))
  {
    if |items| == 0 then Some([])
    else if !items[0].Str? then None
    else
      match parse(items[0].s)
      case None => None
      case Some(x) =>
        match ParseLines(items[1..], parse)
        case None => None
        case Some(xs) => Some([x] + xs)
  }

  // ---------------------------------------------------------------- kline endpoints

  /** `data["data"]["klines"]` when the guard
      `data.get("data") and data["data"].get("klines")` passes, as a sequence. */
  function KlineItems(resp: Option<Json.Value>): (r: Option<seq<Json.Value>>)
  {
    if resp.None? then None
    else
      match Json.TruthyMember(resp.value, "data")
      case None => None
      case Some(d) =>
        match Json.TruthyMember(d, "klines")
        case None => None
        case Some(k) => Json.AsSequence(k)
  }

  /** `klines[-days:]`: the items the fetchers keep, in provider order. */
  function KeptKlines(resp: Option<Json.Value>, days: int): (r: Option<seq<Json.Value>>)
    ensures r.Some? <==> KlineItems(resp).Some?
    ensures r.Some? ==> r.value == PyTail(KlineItems(resp).value, days)
  {
    match KlineItems(resp)
    case None => None
    case Some(items) => Some(PyTail(items, days))
  }

  /** For a positive day count the fetchers keep exactly the last
      `min(days, n)` of the `n` klines, in provider order. */
  lemma KeptKlinesAreLastDays(resp: Option<Json.Value>, days: int)
    requires KlineItems(resp).Some? && days >= 1
    ensures var all := KlineItems(resp).value;
      var kept := KeptKlines(resp, days).value;
      |kept| == (if days < |all| then days else |all|)
      && forall i | 0 <= i < |kept| :: kept[i] == all[|all| - |kept| + i]
  {
  }

  /** `get_index_history(secid, days)` on the decoded response. */
  function GetIndexHistory(resp: Option<Json.Value>, days: int, num: NumberParser): (r: Option<seq<Bar>>)
    ensures r.Some? ==> KeptKlines(resp, days).Some?
    ensures r.Some? ==> var kept := KeptKlines(resp, days).value;
      |r.value| == |kept|
      && forall i | 0 <= i < |kept| ::
        kept[i].Str? && r.value[i].date == Split(kept[i].s, ',')[0]
    ensures KlineItems(resp).None? ==> r.None?
    ensures var kept := KeptKlines(resp, days);
      r.Some? <==> kept.Some? && forall i | 0 <= i < |kept.value| ::
        kept.value[i].Str? && ParseBar(kept.value[i].s, num).Some?
    ensures r.Some? ==> var kept := KeptKlines(resp, days).value;
      forall i | 0 <= i < |kept| :: Some(r.value[i]) == ParseBar(kept[i].s, num)
  {
    match KeptKlines(resp, days)
    case None => None
    case Some(kept) => ParseLines(kept, (line: string) => ParseBar(line, num))
  }

  /** `get_money_flow(secid, days)` on the decoded response. */
  function GetMoneyFlow(resp: Option<Json.Value>, days: int, num: NumberParser): (r: Option<seq<Flow>>)
    ensures r.Some? ==> KeptKlines(resp, days).Some?
    ensures r.Some? ==> var kept := KeptKlines(resp, days).value;
      |r.value| == |kept|
      && forall i | 0 <= i < |kept| ::
        kept[i].Str? && r.value[i].date == Split(kept[i].s, ',')[0]
    ensures KlineItems(resp).None? ==> r.None?
    ensures var kept := KeptKlines(resp, days);
      r.Some? <==> kept.Some? && forall i | 0 <= i < |kept.value| ::
        kept.value[i].Str? && ParseFlow(kept.value[i].s, num).Some?
    ensures r.Some? ==> var kept := KeptKlines(resp, days).value;
      forall i | 0 <= i < |kept| :: Some(r.value[i]) == ParseFlow(kept[i].s, num)
  {
    match KeptKlines(resp, days)
    case None => None
    case Some(kept) => ParseLines(kept, (line: string) => ParseFlow(line, num))
  }

  // ---------------------------------------------------------------- realtime quote

  /** `d.get(key, 0) / divisor`: a missing field counts as 0, a non-numeric
      one raises TypeError. */
  function Scaled(d: map<string, Json.Value>, key: string, divisor: real): (r: Option<real>)
    requires divisor != 0.0
    ensures key !in d ==> r == Some(0.0)
    ensures key in d && d[key].Num? ==> r == Some(d[key].n / divisor)
    ensures key in d && !(d[key].Num? || d[key].Bool?) ==> r.None?
  {
    var v := if key in d then d[key] else Json.Num(0.0);
    match Json.AsNumber(v)
    case None => None
    case Some(x) => Some(x / divisor)
  }

  /** Every price field of a quote is missing or numeric, so dividing it by
      100 does not raise. */
  predicate QuoteFieldsScale(m: map<string, Json.Value>) {
    Scaled(m, "f43", 100.0).Some? && Scaled(m, "f170", 100.0).Some? && Scaled(m, "f171", 100.0).Some?
    && Scaled(m, "f46", 100.0).Some? && Scaled(m, "f44", 100.0).Some? && Scaled(m, "f45", 100.0).Some?
    && Scaled(m, "f60", 100.0).Some?
  }

  /** `get_realtime_quote(secid)` on the decoded response: price fields are the
      provider's integers divided by 100, volume and turnover are unscaled. */
  function GetRealtimeQuote(resp: Option<Json.Value>): (r: Option<Quote>)
    ensures r.Some? ==> resp.Some? && Json.TruthyMember(resp.value, "data").Some?
    ensures r.Some? ==>
      var d := Json.TruthyMember(resp.value, "data").value;
      d.Obj?
      && Some(r.value.latest) == Scaled(d.fields, "f43", 100.0)
      && Some(r.value.changePct) == Scaled(d.fields, "f170", 100.0)
      && Some(r.value.changeAmt) == Scaled(d.fields, "f171", 100.0)
      && Some(r.value.open) == Scaled(d.fields, "f46", 100.0)
      && Some(r.value.high) == Scaled(d.fields, "f44", 100.0)
      && Some(r.value.low) == Scaled(d.fields, "f45", 100.0)
      && Some(r.value.prevClose) == Scaled(d.fields, "f60", 100.0)
      && r.value.volume == (if "f47" in d.fields then d.fields["f47"] else Json.Num(0.0))
      && r.value.amount == (if "f48" in d.fields then d.fields["f48"] else Json.Num(0.0))
    ensures r.Some? <==>
      resp.Some? && Json.TruthyMember(resp.value, "data").Some?
      && var d := Json.TruthyMember(resp.value, "data").value;
        d.Obj? && QuoteFieldsScale(d.fields)
  {
    if resp.None? then None
    else
      match Json.TruthyMember(resp.value, "data")
      case None => None
      case Some(d) =>
        if !d.Obj? then None
        else
          var m := d.fields;
          var latest :- Scaled(m, "f43", 100.0);
          var changePct :- Scaled(m, "f170", 100.0);
          var changeAmt :- Scaled(m, "f171", 100.0);
          var open :- Scaled(m, "f46", 100.0);
          var high :- Scaled(m, "f44", 100.0);
          var low :- Scaled(m, "f45", 100.0);
          var prevClose :- Scaled(m, "f60", 100.0);
          Some(Quote(latest, changePct, changeAmt, open, high, low, prevClose,
                     if "f47" in m then m["f47"] else Json.Num(0.0),
                     if "f48" in m then m["f48"] else Json.Num(0.0)))
  }

  // ---------------------------------------------------------------- sector ranking

  /** `text[text.find('{'):text.rfind('}') + 1]`: the JSON inside a JSONP
      callback, from the first `{` through the last `}`. */
  function JsonpBody(text: string): (r: string)
    ensures '{' in text && '}' in text && Find(text, '{') <= RFind(text, '}') ==>
      r == text[Find(text, '{')..RFind(text, '}') + 1]
      && r[0] == '{' && r[|r| - 1] == '}'
      && '{' !in text[..Find(text, '{')] && '}' !in text[RFind(text, '}') + 1..]
  {
    PySlice(text, Find(text, '{'), RFind(text, '}') + 1)
  }

  /** One entry of `data["diff"]` read with `item.get(key, default)`. */
  function SectorOf(item: map<string, Json.Value>): (s: Sector)
    ensures s.name == (if "f14" in item then item["f14"] else Json.Str(""))
    ensures s.changePercent == (if "f3" in item then item["f3"] else Json.Num(0.0))
    ensures s.netFlow == (if "f184" in item then item["f184"] else Json.Num(0.0))
    ensures s.rankType == (if "rankType" in item then item["rankType"] else Json.Num(0.0))
  {
    Sector(
      if "f14" in item then item["f14"] else Json.Str(""),
      if "f3" in item then item["f3"] else Json.Num(0.0),
      if "f184" in item then item["f184"] else Json.Num(0.0),
      if "rankType" in item then item["rankType"] else Json.Num(0.0))
  }

  /** The `for item in data["data"]["diff"]` loop: each item must be a dict. */
  function SectorsOf(items: seq<Json.Value>): (r: Option<seq<Sector>>)
    ensures r.Some? <==> forall i | 0 <= i < |items| :: items[i].Obj?
    ensures r.Some? ==> (|r.value| == |items|
      && forall i | 0 <= i < |items| :: items[i].Obj? && r.value[i] == SectorOf(items[i].fields))
  {
    if |items| == 0 then Some([])
    else if !items[0].Obj? then None
    else
      match SectorsOf(items[1..])
      case None => None
      case Some(rest) => Some([SectorOf(items[0].fields)] + rest)
  }

  /** The ranking entries, when `data.get("data") and data["data"].get("diff")`
      passes. */
  function DiffItems(json: Json.Value): Option<seq<Json.Value>> {
    match Json.TruthyMember(json, "data")
    case None => None
    case Some(d) =>
      match Json.TruthyMember(d, "diff")
      case None => None
      case Some(diff) => Json.AsSequence(diff)
  }

  /** `get_sector_data()` on the response text (`None` when the request
      raised): the first at most five ranking entries, in provider order. */
  function GetSectorData(text: Option<string>, parse: JsonParser): (r: Option<seq<Sector>>)
    ensures r.Some? ==> text.Some? && parse(JsonpBody(text.value)).Some?
    ensures r.Some? ==>
      var items := DiffItems(parse(JsonpBody(text.value)).value);
      items.Some?
      && |r.value| == (if |items.value| < SectorLimit then |items.value| else SectorLimit)
      && forall i | 0 <= i < |r.value| :: items.value[i].Obj? && r.value[i] == SectorOf(items.value[i].fields)
    ensures r.Some? <==>
      text.Some? && parse(JsonpBody(text.value)).Some?
      && var items := DiffItems(parse(JsonpBody(text.value)).value);
        items.Some? && forall i | 0 <= i < |items.value| :: items.value[i].Obj?
  {
    if text.None? then None
    else
      match parse(JsonpBody(text.value))
      case None => None
      case Some(json) =>
        match DiffItems(json)
        case None => None
        case Some(items) =>
          match SectorsOf(items)
          case None => None
          case Some(sectors) => Some(PySlice(sectors, 0, SectorLimit))
  }

  /** `is_trading_day()`: the calendar checks after its first `return` are
      unreachable, so every day counts as a trading day. */
  function IsTradingDay(): (r: bool)
    ensures r
  {
    true
  }
}
