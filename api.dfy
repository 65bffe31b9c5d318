/**
 * The decision rules of api/main.py. Market data comes from a foreign
 * library; here every fetch is a function parameter giving either the data
 * or the message of the exception it raised, and the numbers the library
 * computes (closing prices, moving averages, volatility) are inputs. Only
 * the branching, the tables, the clamp and the bookkeeping are modelled.
 */
module Api {
  import opened Wrappers

  /**
   * A float64 as pandas produces it: a number, or NaN (a rolling mean over
   * fewer rows than its window, a deviation over fewer than two returns).
   */
  datatype Measure = Num(v: real) | NaN

  /** Python `x > m`: false whenever `m` is NaN. */
  predicate Above(x: real, m: Measure)
  {
    m.Num? && x > m.v
  }

  /** Python `x < m`: false whenever `m` is NaN. */
  predicate Below(x: real, m: Measure)
  {
    m.Num? && x < m.v
  }

  /** An `HTTPException`: status code and detail text. */
  datatype HttpError = HttpError(status: nat, detail: string)

  /** Every endpoint turns an exception into a 500 whose detail is `str(e)`. */
  function ServerError(message: string): (e: HttpError)
    ensures e.status == 500 && e.detail == message
  {
    HttpError(500, message)
  }

  // ---------------------------------------------------------------------
  // GET /assets/{symbol}/chart

  /** The chart range table. */
  const Periods: map<string, string> :=
    map["1D" := "1d", "1W" := "1wk", "1M" := "1mo", "3M" := "3mo", "1Y" := "1y"]

  const DefaultPeriod: string := "1mo"

  /**
   * `periods.get(range, "1mo")`: always one of the table's periods, and the
   * default one exactly for "1M" and for every range outside the table.
   */
  function PeriodFor(range: string): (p: string)
    ensures p in Periods.Values
    ensures p == DefaultPeriod <==> range == "1M" || range !in Periods
  {
    if range in Periods then Periods[range]
    else
      assert Periods["1M"] == DefaultPeriod;
      DefaultPeriod
  }

  /** The individual entries of the table. */
  lemma PeriodTable()
    ensures PeriodFor("1D") == "1d" && PeriodFor("1W") == "1wk" && PeriodFor("1M") == "1mo"
    ensures PeriodFor("3M") == "3mo" && PeriodFor("1Y") == "1y"
    ensures PeriodFor("") == "1mo" && PeriodFor("1m") == "1mo" && PeriodFor("5Y") == "1mo"
  {
  }

  /**
   * One row of the price history with its two moving averages; the date is
   * already formatted as YYYY-MM-DD.
   */
  datatype HistRow = HistRow(date: string, close: real, sma50: Measure, sma200: Measure)

  /** One `ChartData` record. */
  datatype ChartPoint = ChartPoint(date: string, price: real, sma50: real, sma200: real)

  /** `m if not pd.isna(m) else 0`. */
  function OrZero(m: Measure): (r: real)
    ensures m.Num? ==> r == m.v
    ensures m.NaN? ==> r == 0.0
  {
    match m
    case Num(v) => v
    case NaN => 0.0
  }

  /** The record for one history row: same date and price, a missing average read as 0. */
  function ToPoint(row: HistRow): (p: ChartPoint)
    ensures p.date == row.date && p.price == row.close
    ensures p.sma50 == OrZero(row.sma50) && p.sma200 == OrZero(row.sma200)
  {
    ChartPoint(row.date, row.close, OrZero(row.sma50), OrZero(row.sma200))
  }

  /**
   * `get_chart_data(symbol, range)`. `history(symbol, period)` is the
   * fetch of the history for the looked-up period. On success, one record
   * per history row, in the history's order; any exception becomes a 500.
   */
  method GetChartData(symbol: string, range: string,
                      history: (string, string) -> Result<seq<HistRow>, string>)
    returns (r: Result<seq<ChartPoint>, HttpError>)
    ensures history(symbol, PeriodFor(range)).Err? ==>
      r == Err(ServerError(history(symbol, PeriodFor(range)).error))
    ensures history(symbol, PeriodFor(range)).Ok? ==>
      && r.Ok?
      && |r.value| == |history(symbol, PeriodFor(range)).value|
      && forall i :: 0 <= i < |r.value| ==>
           r.value[i] == ToPoint(history(symbol, PeriodFor(range)).value[i])
  {
    var period := PeriodFor(range);
    var fetched := history(symbol, period);
    if fetched.Err? {
      return Err(ServerError(fetched.error));
    }
    var hist := fetched.value;
    var result: seq<ChartPoint> := [];
    var i := 0;
    while i < |hist|
      invariant 0 <= i <= |hist|
      invariant |result| == i
      invariant forall k :: 0 <= k < i ==> result[k] == ToPoint(hist[k])
    {
      result := result + [ToPoint(hist[i])];
      i := i + 1;
    }
    r := Ok(result);
  }

  // ---------------------------------------------------------------------
  // POST /dca/analyze

  /** Seconds are the unit of time: `timedelta(days = d)` is `d * SecondsPerDay`. */
  const SecondsPerDay: int := 86400

  /** The request body `DCAStrategy`; times are seconds since the epoch. */
  datatype Strategy = Strategy(
    asset: string, amount: real, frequency: string,
    startDate: int, endDate: Option<int>, aiEnhanced: bool)

  /**
   * What the analysis reads from one year of history: the last close, the
   * last 50- and 200-day rolling means and the annualised volatility.
   */
  datatype Snapshot = Snapshot(price: real, sma50: Measure, sma200: Measure, volatility: Measure)

  /** The three market-condition notes, in the order the analysis emits them. */
  datatype Condition = AboveSma50 | AboveSma200 | HighVolatility
  {
    function Label(): string
    {
      match this
      case AboveSma50 => "价格高于50日均线"
      case AboveSma200 => "价格高于200日均线"
      case HighVolatility => "市场波动性较高"
    }

    function Rank(): nat
    {
      match this
      case AboveSma50 => 0
      case AboveSma200 => 1
      case HighVolatility => 2
    }
  }

  /** The volatility above which the market counts as volatile. */
  const VolatilityThreshold: real := 0.5

  /** Python `volatility > 0.5`, false for NaN. */
  predicate Volatile(volatility: Measure)
  {
    volatility.Num? && volatility.v > VolatilityThreshold
  }

  /**
   * `market_conditions`: each note present exactly when its comparison
   * holds, at most one of each, in the fixed order.
   */
  function MarketConditions(price: real, sma50: Measure, sma200: Measure, volatility: Measure)
    : (r: seq<Condition>)
    ensures |r| <= 3
    ensures AboveSma50 in r <==> Above(price, sma50)
    ensures AboveSma200 in r <==> Above(price, sma200)
    ensures HighVolatility in r <==> Volatile(volatility)
    ensures forall i, j :: 0 <= i < j < |r| ==> r[i].Rank() < r[j].Rank()
  {
    (if Above(price, sma50) then [AboveSma50] else [])
    + (if Above(price, sma200) then [AboveSma200] else [])
    + (if Volatile(volatility) then [HighVolatility] else [])
  }

  /** The texts of the notes, as the response lists them. */
  function Labels(cs: seq<Condition>): (ts: seq<string>)
    ensures |ts| == |cs|
    ensures forall i :: 0 <= i < |cs| ==> ts[i] == cs[i].Label()
  {
    if cs == [] then [] else [cs[0].Label()] + Labels(cs[1..])
  }

  /** Different notes and different sentiments have different texts, so the response determines them. */
  lemma LabelsDistinct()
    ensures forall a: Condition, b: Condition :: a.Label() == b.Label() ==> a == b
    ensures forall a: Sentiment, b: Sentiment :: a.Label() == b.Label() ==> a == b
  {
  }

  datatype Sentiment = Bullish | Bearish | Neutral
  {
    function Label(): string
    {
      match this
      case Bullish => "看涨"
      case Bearish => "看跌"
      case Neutral => "中性"
    }
  }

  /**
   * The sentiment and its confidence: bullish (0.8) when strictly above both
   * averages, bearish (0.7) when strictly below both, otherwise neutral
   * (0.5), which takes in ties, mixed positions and NaN averages.
   */
  function Classify(price: real, sma50: Measure, sma200: Measure): (r: (Sentiment, real))
    ensures r.0 == Bullish <==> Above(price, sma50) && Above(price, sma200)
    ensures r.0 == Bearish <==> Below(price, sma50) && Below(price, sma200)
    ensures r.1 == (match r.0 case Bullish => 0.8 case Bearish => 0.7 case Neutral => 0.5)
  {
    if Above(price, sma200) && Above(price, sma50) then (Bullish, 0.8)
    else if Below(price, sma200) && Below(price, sma50) then (Bearish, 0.7)
    else (Neutral, 0.5)
  }

  /** A price equal to either average is never bullish nor bearish. */
  lemma TieIsNeutral(price: real, sma50: Measure, sma200: Measure)
    requires sma50 == Num(price) || sma200 == Num(price)
    ensures Classify(price, sma50, sma200).0 == Neutral
    ensures Classify(price, sma50, sma200).1 == 0.5
  {
  }

  /** The frequency table. */
  const FrequencyTable: map<string, nat> := map["daily" := 1, "weekly" := 7, "monthly" := 30]

  /**
   * Python's quote for `repr(s)`: a double quote only when the text holds a
   * single quote and no double quote.
   */
  function ReprQuote(s: string): (q: char)
    ensures q == '"' || q == '\''
    ensures q == '"' <==> '\'' in s && '"' !in s
  {
    if '\'' in s && '"' !in s then '"' else '\''
  }

  const HexDigits: string := "0123456789abcdef"

  /** How `repr` writes one character inside quotes `q`. */
  function EscapeChar(c: char, q: char): (t: string)
    ensures 1 <= |t|
    ensures t == [c] <==> c != q && c != '\\' && ' ' <= c && c as int != 0x7F
    ensures c == q || c == '\\' ==> t == ['\\', c]
    ensures t != [c] ==> t[0] == '\\'
  {
    if c == q || c == '\\' then ['\\', c]
    else if c == '\t' then "\\t"
    else if c == '\n' then "\\n"
    else if c == '\r' then "\\r"
    else if c < ' ' || c as int == 0x7F then "\\x" + [HexDigits[c as int / 16], HexDigits[c as int % 16]]
    else [c]
  }

  function EscapeAll(s: string, q: char): (t: string)
    ensures |t| >= |s|
  {
    if s == [] then [] else EscapeChar(s[0], q) + EscapeAll(s[1..], q)
  }

  /** Python `repr(s)`, which is also `str(KeyError(s))`. */
  function PyRepr(s: string): (t: string)
    ensures |t| >= |s| + 2
    ensures t[0] == ReprQuote(s) && t[|t| - 1] == ReprQuote(s)
    ensures t[1..|t| - 1] == EscapeAll(s, ReprQuote(s))
  {
    var q := ReprQuote(s);
    var t := [q] + EscapeAll(s, q) + [q];
    assert t[1..|t| - 1] == EscapeAll(s, q);
    t
  }

  predicate IsHexDigit(c: char)
  {
    '0' <= c <= '9' || 'a' <= c <= 'f'
  }

  function HexValue(c: char): (v: nat)
    requires IsHexDigit(c)
    ensures v < 16
  {
    if c <= '9' then c as int - '0' as int else c as int - 'a' as int + 10
  }

  /** Reading back the body of a `repr`: each escape gives the character it stands for. */
  function Unescape(t: string): (s: string)
    decreases |t|
  {
    if t == [] then []
    else if t[0] == '\\' && |t| >= 2 then
      if t[1] == 't' then ['\t'] + Unescape(t[2..])
      else if t[1] == 'n' then ['\n'] + Unescape(t[2..])
      else if t[1] == 'r' then ['\r'] + Unescape(t[2..])
      else if t[1] == 'x' && |t| >= 4 && IsHexDigit(t[2]) && IsHexDigit(t[3]) then
        [(16 * HexValue(t[2]) + HexValue(t[3])) as char] + Unescape(t[4..])
      else [t[1]] + Unescape(t[2..])
    else [t[0]] + Unescape(t[1..])
  }

  /** One escaped character reads back as itself, whatever follows it. */
  lemma UnescapeChar(c: char, q: char, rest: string)
    requires q == '\'' || q == '"'
    ensures Unescape(EscapeChar(c, q) + rest) == [c] + Unescape(rest)
  {
    var t := EscapeChar(c, q) + rest;
    if c == q || c == '\\' {
      assert t[2..] == rest;
    } else if c == '\t' || c == '\n' || c == '\r' {
      assert t[2..] == rest;
    } else if c < ' ' || c as int == 0x7F {
      var n := c as int;
      assert t[2] == HexDigits[n / 16] && t[3] == HexDigits[n % 16];
      assert HexValue(t[2]) == n / 16 && HexValue(t[3]) == n % 16;
      assert t[4..] == rest;
    } else {
      assert t[1..] == rest;
    }
  }

  /** Escaping with either quote loses nothing: reading back gives the key. */
  lemma {:induction false} UnescapeEscapeAll(s: string, q: char)
    requires q == '\'' || q == '"'
    ensures Unescape(EscapeAll(s, q)) == s
    decreases |s|
  {
    if s != [] {
      UnescapeChar(s[0], q, EscapeAll(s[1..], q));
      UnescapeEscapeAll(s[1..], q);
    }
  }

  /** The text of the `KeyError` determines the key. */
  lemma ReprDeterminesKey(a: string, b: string)
    requires PyRepr(a) == PyRepr(b)
    ensures a == b
  {
    var t := PyRepr(a);
    UnescapeEscapeAll(a, ReprQuote(a));
    UnescapeEscapeAll(b, ReprQuote(b));
    assert EscapeAll(a, ReprQuote(a)) == t[1..|t| - 1] == EscapeAll(b, ReprQuote(b));
  }

  /** A text with nothing to escape is written as itself. */
  lemma {:induction false} EscapeAllPlain(s: string, q: char)
    requires forall i :: 0 <= i < |s| ==> s[i] != q && s[i] != '\\' && ' ' <= s[i] && s[i] as int != 0x7F
    ensures EscapeAll(s, q) == s
    decreases |s|
  {
    if s != [] {
      EscapeAllPlain(s[1..], q);
    }
  }

  /** A key without quotes, backslashes or control characters is shown in single quotes. */
  lemma PlainRepr(s: string)
    requires forall i :: 0 <= i < |s| ==> s[i] != '"' && s[i] != '\'' && s[i] != '\\' && ' ' <= s[i] && s[i] as int != 0x7F
    ensures PyRepr(s) == "'" + s + "'"
  {
    EscapeAllPlain(s, '\'');
  }

  /** A key holding a single quote and no double quote is shown in double quotes. */
  lemma DoubleQuotedRepr()
    ensures PyRepr("it's") == "\"it's\""
  {
    var k := "it's";
    assert ReprQuote(k) == '"' by { assert k[2] == '\''; }
    EscapeAllPlain(k, '"');
  }

  /** A key holding both quotes stays in single quotes, with its single quote escaped. */
  lemma EscapedQuoteRepr()
    ensures PyRepr("a'b\"c") == "'a\\'b\"c'"
  {
    var k := "a'b\"c";
    assert ReprQuote(k) == '\'' by { assert k[3] == '"'; }
    assert EscapeAll(k, '\'') == "a" + EscapeAll(k[1..], '\'');
    assert EscapeAll(k[1..], '\'') == "\\'" + EscapeAll(k[2..], '\'');
    EscapeAllPlain(k[2..], '\'');
  }

  /**
   * `frequency_days[strategy.frequency]`: daily is 1 day, weekly 7 and
   * monthly 30; any other key raises a `KeyError`, whose text is the key's
   * `repr`.
   */
  function FrequencyDays(frequency: string): (r: Result<nat, string>)
    ensures r.Ok? <==> frequency in {"daily", "weekly", "monthly"}
    ensures frequency == "daily" ==> r == Ok(1)
    ensures frequency == "weekly" ==> r == Ok(7)
    ensures frequency == "monthly" ==> r == Ok(30)
    ensures r.Err? ==> r.error == PyRepr(frequency)
  {
    if frequency in FrequencyTable then Ok(FrequencyTable[frequency])
    else Err(PyRepr(frequency))
  }

  /** Python `min(a, b)`: `b` only when `b < a` holds, so a NaN `b` gives `a`. */
  function PyMin(a: real, b: Measure): (r: real)
    ensures r <= a
    ensures b.Num? ==> r <= b.v && (r == a || r == b.v)
    ensures b.NaN? ==> r == a
  {
    if b.Num? && b.v < a then b.v else a
  }

  /** Python `max(a, b)` on two numbers. */
  function PyMax(a: real, b: real): (r: real)
    ensures r >= a && r >= b && (r == a || r == b)
  {
    if b > a then b else a
  }

  /** `1 + (0.5 - volatility)`, NaN staying NaN. */
  function Adjustment(volatility: Measure): (r: Measure)
    ensures volatility.NaN? <==> r.NaN?
    ensures volatility.Num? ==> r.v == 1.5 - volatility.v
  {
    match volatility
    case Num(v) => Num(1.0 + (0.5 - v))
    case NaN => NaN
  }

  /**
   * `max(0.5, min(1.5, adjustment))`: always within [0.5, 1.5]; 1.5 - v
   * clamped for a number v, and 1.5 for NaN (both comparisons are false).
   */
  function Multiplier(volatility: Measure): (m: real)
    ensures 0.5 <= m <= 1.5
    ensures volatility.NaN? ==> m == 1.5
    ensures volatility.Num? && volatility.v <= 0.0 ==> m == 1.5
    ensures volatility.Num? && volatility.v >= 1.0 ==> m == 0.5
    ensures volatility.Num? && 0.0 <= volatility.v <= 1.0 ==> m == 1.5 - volatility.v
  {
    PyMax(0.5, PyMin(1.5, Adjustment(volatility)))
  }

  /** Higher volatility never raises the multiplier. */
  lemma MultiplierAntitone(a: real, b: real)
    requires a <= b
    ensures Multiplier(Num(b)) <= Multiplier(Num(a))
  {
  }

  /** `suggested_amount`: for a non-negative amount, between half and one and a half of it. */
  function SuggestedAmount(amount: real, volatility: Measure): (r: real)
    ensures amount >= 0.0 ==> 0.5 * amount <= r <= 1.5 * amount
    ensures amount <= 0.0 ==> 1.5 * amount <= r <= 0.5 * amount
    ensures r == amount * Multiplier(volatility)
  {
    var m := Multiplier(volatility);
    ScaleBounds(amount, m);
    amount * m
  }

  lemma ScaleBounds(amount: real, m: real)
    requires 0.5 <= m <= 1.5
    ensures amount >= 0.0 ==> 0.5 * amount <= amount * m <= 1.5 * amount
    ensures amount <= 0.0 ==> 1.5 * amount <= amount * m <= 0.5 * amount
  {
  }

  /** The `DCARecommendation` response. */
  datatype Recommendation = Recommendation(
    asset: string,
    optimalEntryPrice: real,
    sentiment: string,
    confidence: real,
    nextDcaDate: int,
    suggestedAmount: real,
    marketConditions: seq<string>)

  /** The discount from the current price at which buying is suggested. */
  const EntryFactor: real := 0.95

  /**
   * `analyze_dca_strategy`. `market(asset)` is the fetch and the numerics
   * over one year of history; `now` is `datetime.now()`. A failed fetch
   * (including an empty history) or an unknown frequency is a 500 carrying
   * that exception's text; the fetch comes first, so its error wins.
   */
  function Analyze(strategy: Strategy, market: string -> Result<Snapshot, string>, now: int)
    : (r: Result<Recommendation, HttpError>)
    ensures market(strategy.asset).Err? ==> r == Err(ServerError(market(strategy.asset).error))
    ensures market(strategy.asset).Ok? ==>
      (r.Ok? <==> strategy.frequency in {"daily", "weekly", "monthly"})
    ensures market(strategy.asset).Ok? && FrequencyDays(strategy.frequency).Err? ==>
      r == Err(ServerError(FrequencyDays(strategy.frequency).error))
    ensures r.Ok? ==>
      var snap := market(strategy.asset).value;
      var mood := Classify(snap.price, snap.sma50, snap.sma200);
      && r.value.asset == strategy.asset
      && r.value.optimalEntryPrice == EntryFactor * snap.price
      && r.value.sentiment == mood.0.Label() && r.value.confidence == mood.1
      && r.value.nextDcaDate == now + FrequencyDays(strategy.frequency).value * SecondsPerDay
      && r.value.nextDcaDate > now
      && r.value.suggestedAmount == SuggestedAmount(strategy.amount, snap.volatility)
      && r.value.marketConditions == Labels(MarketConditions(snap.price, snap.sma50, snap.sma200, snap.volatility))
  {
    match market(strategy.asset)
    case Err(e) => Err(ServerError(e))
    case Ok(snap) =>
      var conditions := Labels(MarketConditions(snap.price, snap.sma50, snap.sma200, snap.volatility));
      var entry := snap.price * EntryFactor;
      var mood := Classify(snap.price, snap.sma50, snap.sma200);
      match FrequencyDays(strategy.frequency)
      case Err(e) => Err(ServerError(e))
      case Ok(days) =>
        Ok(Recommendation(
          strategy.asset, entry, mood.0.Label(), mood.1,
          now + days * SecondsPerDay,
          SuggestedAmount(strategy.amount, snap.volatility),
          conditions))
  }

  // ---------------------------------------------------------------------
  // POST /strategies and GET /strategies

  /** The character of one decimal digit. */
  function DigitChar(d: nat): (c: char)
    requires d < 10
    ensures '0' <= c <= '9' && c as int - '0' as int == d
  {
    ('0' as int + d) as char
  }

  predicate AllDigits(s: string)
  {
    forall i :: 0 <= i < |s| ==> '0' <= s[i] <= '9'
  }

  /** The number a digit string denotes, most significant digit first. */
  function DigitsValue(s: string): nat
    requires AllDigits(s)
  {
    if s == [] then 0 else 10 * DigitsValue(s[..|s| - 1]) + (s[|s| - 1] as int - '0' as int)
  }

  /**
   * Python `str(n)` for a natural number: digits that denote `n`, with no
   * leading zero.
   */
  function Decimal(n: nat): (s: string)
    ensures 1 <= |s| && (n >= 10 ==> |s| >= 2) && (n < 10 ==> |s| == 1)
    ensures AllDigits(s) && DigitsValue(s) == n
    ensures s[0] == '0' <==> n == 0
    decreases n
  {
    if n < 10 then [DigitChar(n)]
    else
      var front := Decimal(n / 10);
      var s := front + [DigitChar(n % 10)];
      assert s[..|s| - 1] == front;
      s
  }

  /** Different numbers are written differently: the text gives back its number. */
  lemma DecimalInjective(a: nat, b: nat)
    requires Decimal(a) == Decimal(b)
    ensures a == b
  {
    assert DigitsValue(Decimal(a)) == a && DigitsValue(Decimal(b)) == b;
  }

  const IdPrefix: string := "strategy_"

  /** `f"strategy_{n}"`. */
  function StrategyId(n: nat): (id: string)
    ensures |id| > |IdPrefix| && id[..|IdPrefix|] == IdPrefix
    ensures id[|IdPrefix|..] == Decimal(n)
  {
    IdPrefix + Decimal(n)
  }

  /** Distinct positions give distinct ids. */
  lemma StrategyIdInjective(a: nat, b: nat)
    requires StrategyId(a) == StrategyId(b)
    ensures a == b
  {
    assert Decimal(a) == StrategyId(a)[|IdPrefix|..] == StrategyId(b)[|IdPrefix|..] == Decimal(b);
    DecimalInjective(a, b);
  }

  /** A `SavedStrategy` record; `createdAt` is `datetime.now()` at saving. */
  datatype SavedStrategy = SavedStrategy(
    id: string, createdAt: int, strategy: Strategy, recommendation: Recommendation)

  /** The i-th record (from 0) of the list carries the id `strategy_{i+1}`. */
  predicate SequentialIds(saved: seq<SavedStrategy>)
  {
    forall i :: 0 <= i < |saved| ==> saved[i].id == StrategyId(i + 1)
  }

  /** Appending the record numbered next keeps the ids sequential. */
  lemma SequentialIdsSnoc(saved: seq<SavedStrategy>, record: SavedStrategy)
    requires SequentialIds(saved) && record.id == StrategyId(|saved| + 1)
    ensures SequentialIds(saved + [record])
  {
    var grown := saved + [record];
    forall i | 0 <= i < |grown| ensures grown[i].id == StrategyId(i + 1) {
      if i < |saved| {
        assert grown[i] == saved[i];
      }
    }
  }

  /** Sequential ids never repeat. */
  lemma SequentialIdsAreUnique(saved: seq<SavedStrategy>)
    requires SequentialIds(saved)
    ensures forall i, j :: 0 <= i < j < |saved| ==> saved[i].id != saved[j].id
  {
    forall i, j | 0 <= i < j < |saved| ensures saved[i].id != saved[j].id {
      assert saved[i].id == StrategyId(i + 1) && saved[j].id == StrategyId(j + 1);
    }
  }

  /**
   * `str(e)` for an `HTTPException` caught by `save_strategy`: Starlette
   * renders it as its status code, a colon and its detail.
   */
  function ExceptionText(e: HttpError): (s: string)
    ensures |s| > |e.detail| && s[|s| - |e.detail|..] == e.detail
    ensures s[..|s| - |e.detail|] == Decimal(e.status) + ": "
  {
    Decimal(e.status) + ": " + e.detail
  }

  /** The in-memory `saved_strategies` list. */
  class StrategyStore {
    var saved: seq<SavedStrategy>

    ghost predicate Valid()
      reads this
    {
      SequentialIds(saved)
    }

    constructor ()
      ensures Valid() && saved == []
    {
      saved := [];
    }

    /**
     * `save_strategy`: runs the analysis; if it fails, nothing is stored and
     * its error comes back wrapped in another 500; otherwise exactly one
     * record, numbered after the ones before it, is appended and returned.
     */
    method SaveStrategy(strategy: Strategy, market: string -> Result<Snapshot, string>,
                        analyzedAt: int, createdAt: int)
      returns (r: Result<SavedStrategy, HttpError>)
      requires Valid()
      modifies this
      ensures Valid()
      ensures Analyze(strategy, market, analyzedAt).Err? ==>
        && saved == old(saved)
        && r == Err(ServerError(ExceptionText(Analyze(strategy, market, analyzedAt).error)))
      ensures Analyze(strategy, market, analyzedAt).Ok? ==>
        && r == Ok(SavedStrategy(StrategyId(|old(saved)| + 1), createdAt, strategy,
                                 Analyze(strategy, market, analyzedAt).value))
        && saved == old(saved) + [r.value]
    {
      var recommendation := Analyze(strategy, market, analyzedAt);
      if recommendation.Err? {
        return Err(ServerError(ExceptionText(recommendation.error)));
      }
      var record := SavedStrategy(StrategyId(|saved| + 1), createdAt, strategy, recommendation.value);
      SequentialIdsSnoc(saved, record);
      saved := saved + [record];
      r := Ok(record);
    }

    /** `get_saved_strategies`: the whole list, in saving order. */
    method GetSavedStrategies() returns (r: seq<SavedStrategy>)
      requires Valid()
      ensures r == saved
      ensures forall i, j :: 0 <= i < j < |r| ==> r[i].id != r[j].id
    {
      SequentialIdsAreUnique(saved);
      r := saved;
    }
  }

  // ---------------------------------------------------------------------
  // GET /assets

  /** The symbols listed, in order. */
  const Symbols: seq<string> := ["BTC-USD", "ETH-USD", "SOL-USD", "BNB-USD"]

  /** One bar of the two-day history. */
  datatype Bar = Bar(close: real, volume: real)

  /** What the fetch of one symbol yields: the `name` entry of its info, if any, and its history. */
  datatype TickerData = TickerData(infoName: Option<string>, history: seq<Bar>)

  /** An `Asset` record, without its 24-hour change percentage. */
  datatype AssetQuote = AssetQuote(symbol: string, name: string, currentPrice: real, volume24h: real)

  /**
   * The record for one symbol, or nothing when the fetch raised or the
   * history has fewer than two rows; the name defaults to the symbol.
   */
  function QuoteOf(symbol: string, fetched: Result<TickerData, string>): (q: Option<AssetQuote>)
    ensures q.Some? <==> fetched.Ok? && |fetched.value.history| >= 2
    ensures q.Some? ==>
      var h := fetched.value.history;
      && q.value.symbol == symbol
      && q.value.name == (if fetched.value.infoName.Some? then fetched.value.infoName.value else symbol)
      && q.value.currentPrice == h[|h| - 1].close
      && q.value.volume24h == h[|h| - 1].volume
  {
    match fetched
    case Err(_) => None
    case Ok(data) =>
      if |data.history| >= 2 then
        var last := data.history[|data.history| - 1];
        var name := match data.infoName case Some(n) => n case None => symbol;
        Some(AssetQuote(symbol, name, last.close, last.volume))
      else None
  }

  /** Whether the symbol makes it into the list. */
  predicate Listed(symbol: string, fetch: string -> Result<TickerData, string>)
  {
    QuoteOf(symbol, fetch(symbol)).Some?
  }

  /** The list for a sequence of symbols, built from the front. */
  function Quotes(symbols: seq<string>, fetch: string -> Result<TickerData, string>)
    : (r: seq<AssetQuote>)
    ensures |r| <= |symbols|
    decreases |symbols|
  {
    if symbols == [] then []
    else
      var n := |symbols| - 1;
      Quotes(symbols[..n], fetch)
        + match QuoteOf(symbols[n], fetch(symbols[n])) case Some(q) => [q] case None => []
  }

  /** The position of a symbol in a sequence. */
  function IndexOf(symbols: seq<string>, s: string): (i: nat)
    requires s in symbols
    ensures i < |symbols| && symbols[i] == s
    ensures forall k :: 0 <= k < i ==> symbols[k] != s
  {
    if symbols[0] == s then 0 else 1 + IndexOf(symbols[1..], s)
  }

  predicate Distinct(symbols: seq<string>)
  {
    forall i, j :: 0 <= i < j < |symbols| ==> symbols[i] != symbols[j]
  }

  lemma IndexOfPrefix(symbols: seq<string>, n: nat, s: string)
    requires Distinct(symbols) && n <= |symbols| && s in symbols[..n]
    ensures s in symbols && IndexOf(symbols, s) == IndexOf(symbols[..n], s) < n
  {
    var i := IndexOf(symbols[..n], s);
    assert symbols[i] == s;
    var j := IndexOf(symbols, s);
    assert j <= i;
    assert symbols[j] == symbols[i];
  }

  /** The list after one more symbol: the list so far, then that symbol's record if it has one. */
  lemma QuotesSnoc(symbols: seq<string>, fetch: string -> Result<TickerData, string>)
    requires symbols != []
    ensures var n := |symbols| - 1;
      Quotes(symbols, fetch) == Quotes(symbols[..n], fetch)
        + match QuoteOf(symbols[n], fetch(symbols[n])) case Some(q) => [q] case None => []
  {
  }

  /** Every record in the list is the quote of a listed symbol. */
  lemma {:induction false} QuotesSound(symbols: seq<string>, fetch: string -> Result<TickerData, string>)
    ensures forall q :: q in Quotes(symbols, fetch) ==>
      q.symbol in symbols && Listed(q.symbol, fetch) && Some(q) == QuoteOf(q.symbol, fetch(q.symbol))
    decreases |symbols|
  {
    if symbols != [] {
      var n := |symbols| - 1;
      QuotesSound(symbols[..n], fetch);
      QuotesSnoc(symbols, fetch);
      forall q | q in Quotes(symbols[..n], fetch) ensures q.symbol in symbols {
        assert q.symbol in symbols[..n];
      }
    }
  }

  /** Every listed symbol has a record in the list. */
  lemma {:induction false} QuotesComplete(symbols: seq<string>, fetch: string -> Result<TickerData, string>)
    ensures forall s :: s in symbols && Listed(s, fetch) ==>
      exists q :: q in Quotes(symbols, fetch) && q.symbol == s
    decreases |symbols|
  {
    if symbols != [] {
      var n := |symbols| - 1;
      QuotesComplete(symbols[..n], fetch);
      QuotesSnoc(symbols, fetch);
      forall s | s in symbols && Listed(s, fetch)
        ensures exists q :: q in Quotes(symbols, fetch) && q.symbol == s
      {
        if s == symbols[n] {
          var q := QuoteOf(s, fetch(s)).value;
          assert q in Quotes(symbols, fetch);
        } else {
          assert s in symbols[..n] by {
            var k :| 0 <= k < |symbols| && symbols[k] == s;
            assert symbols[..n][k] == s;
          }
          var q :| q in Quotes(symbols[..n], fetch) && q.symbol == s;
          assert q in Quotes(symbols, fetch);
        }
      }
    }
  }

  /** The records follow the order of their symbols. */
  lemma {:induction false} QuotesOrdered(symbols: seq<string>, fetch: string -> Result<TickerData, string>)
    requires Distinct(symbols)
    ensures var r := Quotes(symbols, fetch);
      forall i, j :: 0 <= i < j < |r| ==>
        r[i].symbol in symbols && r[j].symbol in symbols &&
        IndexOf(symbols, r[i].symbol) < IndexOf(symbols, r[j].symbol)
    decreases |symbols|
  {
    QuotesSound(symbols, fetch);
    if symbols != [] {
      var n := |symbols| - 1;
      var front := symbols[..n];
      assert Distinct(front);
      QuotesOrdered(front, fetch);
      QuotesSound(front, fetch);
      QuotesSnoc(symbols, fetch);
      var prev := Quotes(front, fetch);
      var r := Quotes(symbols, fetch);
      forall x | x in prev ensures x.symbol in symbols && IndexOf(symbols, x.symbol) < n {
        IndexOfPrefix(symbols, n, x.symbol);
      }
      assert n == IndexOf(symbols, symbols[n]) by {
        var k := IndexOf(symbols, symbols[n]);
        assert symbols[k] == symbols[n];
      }
      forall i, j | 0 <= i < j < |r|
        ensures IndexOf(symbols, r[i].symbol) < IndexOf(symbols, r[j].symbol)
      {
        assert r[i] in prev;
        IndexOfPrefix(symbols, n, r[i].symbol);
        if j < |prev| {
          IndexOfPrefix(symbols, n, r[j].symbol);
        } else {
          assert r[j].symbol == symbols[n];
        }
      }
    }
  }

  /**
   * `get_assets`: tries each symbol in turn and appends its record unless the
   * fetch raised or the history is shorter than two rows.
   */
  method GetAssets(fetch: string -> Result<TickerData, string>) returns (result: seq<AssetQuote>)
    ensures result == Quotes(Symbols, fetch)
    ensures |result| <= |Symbols|
    ensures forall q :: q in result ==> q.symbol in Symbols && Listed(q.symbol, fetch)
    ensures forall s :: s in Symbols && Listed(s, fetch) ==> exists q :: q in result && q.symbol == s
    ensures forall i, j :: 0 <= i < j < |result| ==>
      result[i].symbol in Symbols && result[j].symbol in Symbols &&
      IndexOf(Symbols, result[i].symbol) < IndexOf(Symbols, result[j].symbol)
  {
    result := [];
    var i := 0;
    while i < |Symbols|
      invariant 0 <= i <= |Symbols|
      invariant result == Quotes(Symbols[..i], fetch)
    {
      var symbol := Symbols[i];
      var quote := QuoteOf(symbol, fetch(symbol));
      if quote.Some? {
        result := result + [quote.value];
      }
      assert Symbols[..i + 1][..i] == Symbols[..i];
      i := i + 1;
    }
    assert Symbols[..i] == Symbols;
    QuotesSound(Symbols, fetch);
    QuotesComplete(Symbols, fetch);
    QuotesOrdered(Symbols, fetch);
  }
}
