/**
 * The forex tool of the procurement agent (main.py:68-162): INR-per-unit rates
 * derived from the quotes of one bridge asset (Tether) in INR and in seven fixed
 * currencies, the cheapest ("best") and dearest ("worst") currency, the savings
 * of the one against the other, and the report ranked by rate.
 *
 * The provider's decoded JSON body is the input; fetching it is not modelled.
 * Rates are `real`; the report is a sequence of lines, not formatted text.
 */
module Forex {

  /** The target currencies, named as the report names them (the upper-cased quote key). */
  datatype Currency = USD | EUR | GBP | JPY | AUD | CAD | CHF

  /** The fixed order in which the tool visits the currencies (main.py:104). */
  const Currencies: seq<Currency> := [USD, EUR, GBP, JPY, AUD, CAD, CHF]

  /** Where a currency stands in `Currencies`. */
  function Position(c: Currency): (p: nat)
    ensures p < |Currencies| && Currencies[p] == c
  {
    match c
    case USD => 0
    case EUR => 1
    case GBP => 2
    case JPY => 3
    case AUD => 4
    case CAD => 5
    case CHF => 6
  }

  /** The key under which the provider quotes a currency. */
  function QuoteKey(c: Currency): string
  {
    match c
    case USD => "usd"
    case EUR => "eur"
    case GBP => "gbp"
    case JPY => "jpy"
    case AUD => "aud"
    case CAD => "cad"
    case CHF => "chf"
  }

  /** One asset's prices, keyed by lower-case currency code. */
  type Quotes = map<string, real>

  /** The provider's decoded response: quotes per asset id. */
  type Payload = map<string, Quotes>

  const BridgeAsset: string := "tether"
  const InrKey: string := "inr"

  /** `usdt_rates.get("inr", 0)`: a missing INR quote reads as zero. */
  function InrQuote(quotes: Quotes): real
  {
    if InrKey in quotes then quotes[InrKey] else 0.0
  }

  /** A currency gets a rate when its quote is present and positive (main.py:108). */
  predicate Qualifies(quotes: Quotes, c: Currency)
  {
    QuoteKey(c) in quotes && quotes[QuoteKey(c)] > 0.0
  }

  /** INR per unit of `c`: the bridge's INR price over its price in `c` (main.py:109). */
  function RateOf(quotes: Quotes, c: Currency): real
    requires Qualifies(quotes, c)
  {
    InrQuote(quotes) / quotes[QuoteKey(c)]
  }

  /** One entry of the `rates` dictionary. */
  datatype Rate = Rate(currency: Currency, perUnit: real)

  /**
   * The `rates` dictionary after visiting the currencies of `cs` in order, as its
   * items in insertion order.
   */
  function RatesOver(quotes: Quotes, cs: seq<Currency>): seq<Rate>
  {
    if cs == [] then []
    else
      var c := cs[|cs| - 1];
      RatesOver(quotes, cs[..|cs| - 1])
      + (if Qualifies(quotes, c) then [Rate(c, RateOf(quotes, c))] else [])
  }

  /** The currencies of `cs` appear in strictly increasing list position. */
  predicate Increasing(cs: seq<Currency>)
  {
    forall i, j :: 0 <= i < j < |cs| ==> Position(cs[i]) < Position(cs[j])
  }

  /** The entries appear in strictly increasing list position of their currency. */
  predicate InListOrder(rs: seq<Rate>)
  {
    forall i, j :: 0 <= i < j < |rs| ==> Position(rs[i].currency) < Position(rs[j].currency)
  }

  /** The entries are in non-decreasing order of rate. */
  predicate SortedByRate(rs: seq<Rate>)
  {
    forall i, j :: 0 <= i < j < |rs| ==> rs[i].perUnit <= rs[j].perUnit
  }

  /** Entries with equal rates appear in list order. */
  predicate TiesInListOrder(rs: seq<Rate>)
  {
    forall i, j :: 0 <= i < j < |rs| && rs[i].perUnit == rs[j].perUnit ==>
      Position(rs[i].currency) < Position(rs[j].currency)
  }

  /** An entry computed from `quotes`: its currency qualifies and its rate is the quote ratio. */
  predicate FromQuotes(quotes: Quotes, r: Rate)
  {
    Qualifies(quotes, r.currency) && r.perUnit == RateOf(quotes, r.currency)
  }

  /** A currency is in the rates exactly when it is listed and qualifies, with its quote ratio. */
  lemma {:induction false} RatesOverMembership(quotes: Quotes, cs: seq<Currency>)
    ensures forall r :: r in RatesOver(quotes, cs) <==> r.currency in cs && FromQuotes(quotes, r)
  {
    if cs != [] {
      var init := cs[..|cs| - 1];
      RatesOverMembership(quotes, init);
      assert cs == init + [cs[|cs| - 1]];
    }
  }

  /** Visiting the currencies in list order fills the dictionary in list order. */
  lemma {:induction false} RatesOverInListOrder(quotes: Quotes, cs: seq<Currency>)
    requires Increasing(cs)
    ensures InListOrder(RatesOver(quotes, cs))
  {
    if cs != [] {
      var n := |cs| - 1;
      var init := cs[..n];
      RatesOverInListOrder(quotes, init);
      RatesOverMembership(quotes, init);
      var front := RatesOver(quotes, init);
      var rs := RatesOver(quotes, cs);
      forall i, j | 0 <= i < j < |rs|
        ensures Position(rs[i].currency) < Position(rs[j].currency)
      {
        if j >= |front| {
          assert rs[j].currency == cs[n];
          assert rs[i] in front;
          var k :| 0 <= k < n && init[k] == rs[i].currency;
          assert cs[k] == rs[i].currency;
        }
      }
    }
  }

  /** Rates that carry an INR quote other than zero are themselves never zero. */
  lemma NonzeroRates(quotes: Quotes, cs: seq<Currency>)
    requires InrQuote(quotes) != 0.0
    ensures forall k :: 0 <= k < |RatesOver(quotes, cs)| ==> RatesOver(quotes, cs)[k].perUnit != 0.0
  {
    RatesOverMembership(quotes, cs);
    forall k | 0 <= k < |RatesOver(quotes, cs)|
      ensures RatesOver(quotes, cs)[k].perUnit != 0.0
    {
      var r := RatesOver(quotes, cs)[k];
      assert r in RatesOver(quotes, cs);
      var q := quotes[QuoteKey(r.currency)];
      assert r.perUnit * q == InrQuote(quotes);
    }
  }

  /**
   * `min(rates, key=rates.get)`: the position of the first entry with the least rate,
   * scanning in insertion order and replacing only on a strictly smaller rate.
   */
  function FirstMin(rs: seq<Rate>): (i: nat)
    requires rs != []
    ensures i < |rs|
    ensures forall k :: 0 <= k < |rs| ==> rs[i].perUnit <= rs[k].perUnit
    ensures forall k :: 0 <= k < i ==> rs[i].perUnit < rs[k].perUnit
  {
    if |rs| == 1 then 0
    else
      var j := FirstMin(rs[..|rs| - 1]);
      if rs[|rs| - 1].perUnit < rs[j].perUnit then |rs| - 1 else j
  }

  /**
   * `max(rates, key=rates.get)`: the position of the first entry with the greatest
   * rate, replacing only on a strictly greater rate.
   */
  function FirstMax(rs: seq<Rate>): (i: nat)
    requires rs != []
    ensures i < |rs|
    ensures forall k :: 0 <= k < |rs| ==> rs[k].perUnit <= rs[i].perUnit
    ensures forall k :: 0 <= k < i ==> rs[k].perUnit < rs[i].perUnit
  {
    if |rs| == 1 then 0
    else
      var j := FirstMax(rs[..|rs| - 1]);
      if rs[|rs| - 1].perUnit > rs[j].perUnit then |rs| - 1 else j
  }

  /** Places `x` before the first entry whose rate is not below its own. */
  function Insert(x: Rate, t: seq<Rate>): (r: seq<Rate>)
    ensures multiset(r) == multiset(t) + multiset{x}
  {
    if t == [] || x.perUnit <= t[0].perUnit then [x] + t
    else
      assert t == [t[0]] + t[1..];
      [t[0]] + Insert(x, t[1..])
  }

  /** Inserting adds `x` and nothing else. */
  lemma InsertMember(x: Rate, t: seq<Rate>, y: Rate)
    requires y in Insert(x, t)
    ensures y == x || y in t
  {
    assert y in multiset(Insert(x, t));
  }

  lemma {:induction false} InsertSorted(x: Rate, t: seq<Rate>)
    requires SortedByRate(t)
    ensures SortedByRate(Insert(x, t))
  {
    if !(t == [] || x.perUnit <= t[0].perUnit) {
      InsertSorted(x, t[1..]);
      var rest := Insert(x, t[1..]);
      forall j | 0 <= j < |rest| ensures t[0].perUnit <= rest[j].perUnit {
        InsertMember(x, t[1..], rest[j]);
      }
    }
  }

  lemma {:induction false} InsertKeepsTies(x: Rate, t: seq<Rate>)
    requires SortedByRate(t) && TiesInListOrder(t)
    requires forall k :: 0 <= k < |t| ==> Position(x.currency) < Position(t[k].currency)
    ensures TiesInListOrder(Insert(x, t))
  {
    if !(t == [] || x.perUnit <= t[0].perUnit) {
      var u := t[1..];
      assert forall k :: 0 <= k < |u| ==> u[k] == t[k + 1];
      InsertKeepsTies(x, u);
      var rest := Insert(x, u);
      forall j | 0 <= j < |rest| && t[0].perUnit == rest[j].perUnit
        ensures Position(t[0].currency) < Position(rest[j].currency)
      {
        InsertMember(x, u, rest[j]);
      }
      var r := [t[0]] + rest;
      assert Insert(x, t) == r;
      forall i, j | 0 <= i < j < |r| && r[i].perUnit == r[j].perUnit
        ensures Position(r[i].currency) < Position(r[j].currency)
      {
        assert r[j] == rest[j - 1];
        if i > 0 {
          assert r[i] == rest[i - 1];
        }
      }
    }
  }

  /**
   * `sorted(rates.items(), key=lambda x: x[1])`: a sort by rate that keeps the
   * entries and puts each one before the later entries of equal rate.
   */
  function SortByRate(rs: seq<Rate>): (r: seq<Rate>)
    ensures multiset(r) == multiset(rs)
    ensures SortedByRate(r)
  {
    if rs == [] then []
    else
      var t := SortByRate(rs[1..]);
      assert rs == [rs[0]] + rs[1..];
      InsertSorted(rs[0], t);
      Insert(rs[0], t)
  }

  /** The sort is stable: entries that arrive in list order leave ties in list order. */
  lemma {:induction false} SortByRateStable(rs: seq<Rate>)
    requires InListOrder(rs)
    ensures TiesInListOrder(SortByRate(rs))
  {
    if rs != [] {
      var t := SortByRate(rs[1..]);
      SortByRateStable(rs[1..]);
      forall k | 0 <= k < |t| ensures Position(rs[0].currency) < Position(t[k].currency) {
        assert t[k] in multiset(t);
        assert t[k] in rs[1..];
        var m :| 1 <= m < |rs| && rs[m] == t[k];
      }
      InsertKeepsTies(rs[0], t);
    }
  }

  /** The marker a report line carries (main.py:128-133): BEST wins over HIGHEST. */
  datatype Marker = BestRate | Highest | NoMarker

  function MarkerFor(c: Currency, best: Currency, worst: Currency): Marker
  {
    if c == best then BestRate else if c == worst then Highest else NoMarker
  }

  /** One line of the ranked report: `• CUR: ₹rate marker`. */
  datatype Line = Line(currency: Currency, perUnit: real, marker: Marker)

  /** The report lines for the sorted entries. */
  function Lines(sorted: seq<Rate>, best: Currency, worst: Currency): seq<Line>
  {
    seq(|sorted|, i requires 0 <= i < |sorted| =>
      Line(sorted[i].currency, sorted[i].perUnit, MarkerFor(sorted[i].currency, best, worst)))
  }

  /** `((worst_rate - best_rate) / worst_rate) * 100` (main.py:121). */
  function SavingsPercent(best: real, worst: real): real
    requires worst != 0.0
  {
    (worst - best) / worst * 100.0
  }

  /** What the tool reports: one of its three failure messages, or the ranked report. */
  datatype Outcome =
    | NoTetherData   // main.py:92-93
    | NoInrData      // main.py:100-101
    | NoRates        // main.py:111-112
    | Ranked(lines: seq<Line>, best: Currency, bestRate: real,
             worst: Currency, worstRate: real, savingsPercent: real)

  /** Best and worst entry, savings and ranked lines for a non-empty rate dictionary. */
  function Rank(rates: seq<Rate>): (out: Outcome)
    requires rates != []
    requires forall k :: 0 <= k < |rates| ==> rates[k].perUnit != 0.0
  {
    var best := rates[FirstMin(rates)];
    var worst := rates[FirstMax(rates)];
    Ranked(Lines(SortByRate(rates), best.currency, worst.currency),
           best.currency, best.perUnit, worst.currency, worst.perUnit,
           SavingsPercent(best.perUnit, worst.perUnit))
  }

  /** The rates computed from the bridge asset's quotes. */
  function TetherRates(data: Payload): seq<Rate>
    requires BridgeAsset in data
  {
    RatesOver(data[BridgeAsset], Currencies)
  }

  /** The outcome of `get_all_forex_rates` for a decoded provider response. */
  function ForexReport(data: Payload): (out: Outcome)
    ensures out == NoTetherData <==> BridgeAsset !in data
    ensures out == NoInrData <==> BridgeAsset in data && InrQuote(data[BridgeAsset]) == 0.0
    ensures out == NoRates <==>
      BridgeAsset in data && InrQuote(data[BridgeAsset]) != 0.0
      && forall c: Currency :: !Qualifies(data[BridgeAsset], c)
  {
    if BridgeAsset !in data then NoTetherData
    else
      var quotes := data[BridgeAsset];
      if InrQuote(quotes) == 0.0 then NoInrData
      else
        var rates := RatesOver(quotes, Currencies);
        RatesOverMembership(quotes, Currencies);
        if rates == [] then
          assert forall c: Currency :: Qualifies(quotes, c) ==> Rate(c, RateOf(quotes, c)) in rates;
          NoRates
        else
          NonzeroRates(quotes, Currencies);
          Rank(rates)
  }

  /** Every currency is one of the listed ones. */
  lemma AllListed()
    ensures forall c: Currency :: c in Currencies
  {
    forall c: Currency ensures c in Currencies {
      assert Currencies[Position(c)] == c;
    }
  }

  lemma CurrenciesIncreasing()
    ensures Increasing(Currencies)
  {
    forall i | 0 <= i < |Currencies| ensures Position(Currencies[i]) == i {
      match Currencies[i]
      case USD =>
      case EUR =>
      case GBP =>
      case JPY =>
      case AUD =>
      case CAD =>
      case CHF =>
    }
  }

  /** What `ForexReport` ranks, whenever it ranks. */
  lemma RankedRates(data: Payload)
    requires ForexReport(data).Ranked?
    ensures BridgeAsset in data && InrQuote(data[BridgeAsset]) != 0.0
    ensures TetherRates(data) != []
    ensures forall k :: 0 <= k < |TetherRates(data)| ==> TetherRates(data)[k].perUnit != 0.0
    ensures ForexReport(data) == Rank(TetherRates(data))
    ensures InListOrder(TetherRates(data))
    ensures forall r :: r in TetherRates(data) <==> FromQuotes(data[BridgeAsset], r)
  {
    var quotes := data[BridgeAsset];
    var rates := RatesOver(quotes, Currencies);
    assert InrQuote(quotes) != 0.0 && rates != [];
    NonzeroRates(quotes, Currencies);
    assert ForexReport(data) == Rank(rates);
    CurrenciesIncreasing();
    RatesOverInListOrder(quotes, Currencies);
    RatesOverMembership(quotes, Currencies);
    AllListed();
  }

  /** Some line of the report names `c`. */
  predicate Listed(lines: seq<Line>, c: Currency)
  {
    exists i :: 0 <= i < |lines| && lines[i].currency == c
  }

  /**
   * The report lists a currency exactly when its quote is present and positive, and
   * every line shows INR quote over that currency's quote (main.py:104-109, 127).
   */
  lemma ReportListsQualifying(data: Payload)
    requires ForexReport(data).Ranked?
    ensures BridgeAsset in data
    ensures forall c: Currency :: Listed(ForexReport(data).lines, c) <==> Qualifies(data[BridgeAsset], c)
    ensures forall i :: 0 <= i < |ForexReport(data).lines| ==>
      FromQuotes(data[BridgeAsset], Rate(ForexReport(data).lines[i].currency, ForexReport(data).lines[i].perUnit))
  {
    RankedRates(data);
    var quotes := data[BridgeAsset];
    var rates := TetherRates(data);
    var sorted := SortByRate(rates);
    var lines := ForexReport(data).lines;
    forall i | 0 <= i < |lines|
      ensures FromQuotes(quotes, Rate(lines[i].currency, lines[i].perUnit))
    {
      assert sorted[i] in multiset(sorted);
    }
    forall c: Currency | Qualifies(quotes, c) ensures Listed(lines, c) {
      var r := Rate(c, RateOf(quotes, c));
      assert FromQuotes(quotes, r);
      assert r in rates;
      assert r in multiset(rates);
      var i :| 0 <= i < |sorted| && sorted[i] == r;
      assert lines[i].currency == c;
    }
  }

  /** No currency is listed twice. */
  lemma ReportListsEachOnce(data: Payload)
    requires ForexReport(data).Ranked?
    ensures var lines := ForexReport(data).lines;
      forall i, j :: 0 <= i < |lines| && 0 <= j < |lines| && lines[i].currency == lines[j].currency ==> i == j
  {
    RankedRates(data);
    ReportListsQualifying(data);
    var rates := TetherRates(data);
    SortByRateStable(rates);
  }

  /**
   * The report runs from the lowest rate to the highest, and lines of equal rate keep
   * the order of the currency list (main.py:127).
   */
  lemma ReportOrdered(data: Payload)
    requires ForexReport(data).Ranked?
    ensures var lines := ForexReport(data).lines;
      forall i, j :: 0 <= i < j < |lines| ==> lines[i].perUnit <= lines[j].perUnit
    ensures var lines := ForexReport(data).lines;
      forall i, j :: 0 <= i < j < |lines| && lines[i].perUnit == lines[j].perUnit ==>
        Position(lines[i].currency) < Position(lines[j].currency)
  {
    RankedRates(data);
    SortByRateStable(TetherRates(data));
  }

  /**
   * The best currency has the least rate and the worst the greatest; among currencies
   * tied for either, the one earliest in the list is chosen (main.py:115-120).
   */
  lemma BestAndWorst(data: Payload)
    requires ForexReport(data).Ranked?
    ensures BridgeAsset in data
    ensures var out, quotes := ForexReport(data), data[BridgeAsset];
      && Qualifies(quotes, out.best) && out.bestRate == RateOf(quotes, out.best)
      && Qualifies(quotes, out.worst) && out.worstRate == RateOf(quotes, out.worst)
      && (forall c :: Qualifies(quotes, c) ==> out.bestRate <= RateOf(quotes, c) <= out.worstRate)
      && (forall c :: Qualifies(quotes, c) && RateOf(quotes, c) == out.bestRate ==>
            Position(out.best) <= Position(c))
      && (forall c :: Qualifies(quotes, c) && RateOf(quotes, c) == out.worstRate ==>
            Position(out.worst) <= Position(c))
  {
    RankedRates(data);
    ExtremesOf(data[BridgeAsset], TetherRates(data));
  }

  /** The first least and first greatest of entries that are exactly those computed from `quotes`. */
  lemma ExtremesOf(quotes: Quotes, rates: seq<Rate>)
    requires rates != [] && InListOrder(rates)
    requires forall r :: r in rates <==> FromQuotes(quotes, r)
    ensures var b, w := rates[FirstMin(rates)], rates[FirstMax(rates)];
      && FromQuotes(quotes, b) && FromQuotes(quotes, w)
      && (forall c :: Qualifies(quotes, c) ==> b.perUnit <= RateOf(quotes, c) <= w.perUnit)
      && (forall c :: Qualifies(quotes, c) && RateOf(quotes, c) == b.perUnit ==>
            Position(b.currency) <= Position(c))
      && (forall c :: Qualifies(quotes, c) && RateOf(quotes, c) == w.perUnit ==>
            Position(w.currency) <= Position(c))
  {
    var b, w := FirstMin(rates), FirstMax(rates);
    assert rates[b] in rates && rates[w] in rates;
    forall c | Qualifies(quotes, c)
      ensures rates[b].perUnit <= RateOf(quotes, c) <= rates[w].perUnit
      ensures RateOf(quotes, c) == rates[b].perUnit ==> Position(rates[b].currency) <= Position(c)
      ensures RateOf(quotes, c) == rates[w].perUnit ==> Position(rates[w].currency) <= Position(c)
    {
      assert Rate(c, RateOf(quotes, c)) in rates;
      var k :| 0 <= k < |rates| && rates[k] == Rate(c, RateOf(quotes, c));
    }
  }

  /**
   * Exactly one line carries BEST RATE, the best currency's; HIGHEST marks the worst
   * currency's line unless it is also the best, and no other line (main.py:128-133).
   */
  lemma ReportMarkers(data: Payload)
    requires ForexReport(data).Ranked?
    ensures var out := ForexReport(data);
      && (forall i :: 0 <= i < |out.lines| ==>
            (out.lines[i].marker == BestRate <==> out.lines[i].currency == out.best))
      && (forall i :: 0 <= i < |out.lines| ==>
            (out.lines[i].marker == Highest <==> out.lines[i].currency == out.worst && out.worst != out.best))
      && (exists i :: 0 <= i < |out.lines| && out.lines[i].marker == BestRate)
      && (forall i, j :: (0 <= i < |out.lines| && 0 <= j < |out.lines|
            && out.lines[i].marker == BestRate && out.lines[j].marker == BestRate) ==> i == j)
      && ((exists i :: 0 <= i < |out.lines| && out.lines[i].marker == Highest) <==> out.worst != out.best)
      && (forall i, j :: (0 <= i < |out.lines| && 0 <= j < |out.lines|
            && out.lines[i].marker == Highest && out.lines[j].marker == Highest) ==> i == j)
  {
    var out := ForexReport(data);
    BestAndWorst(data);
    ReportListsQualifying(data);
    ReportListsEachOnce(data);
    assert Listed(out.lines, out.best);
    assert Listed(out.lines, out.worst);
  }

  /**
   * With a positive INR quote the savings percentage lies in [0, 100), and it is zero
   * exactly when the best and worst rates agree (main.py:119-121).
   */
  lemma SavingsInRange(data: Payload)
    requires ForexReport(data).Ranked?
    requires BridgeAsset in data && InrQuote(data[BridgeAsset]) > 0.0
    ensures 0.0 <= ForexReport(data).savingsPercent < 100.0
    ensures ForexReport(data).savingsPercent == 0.0 <==> ForexReport(data).bestRate == ForexReport(data).worstRate
  {
    var out := ForexReport(data);
    var quotes := data[BridgeAsset];
    RankedRates(data);
    BestAndWorst(data);
    PositiveRate(quotes, out.best);
    SavingsBounds(out.bestRate, out.worstRate);
  }

  lemma PositiveRate(quotes: Quotes, c: Currency)
    requires Qualifies(quotes, c) && InrQuote(quotes) > 0.0
    ensures RateOf(quotes, c) > 0.0
  {
    var q := quotes[QuoteKey(c)];
    assert RateOf(quotes, c) * q == InrQuote(quotes);
  }

  lemma SavingsBounds(b: real, w: real)
    requires 0.0 < b <= w
    ensures 0.0 <= SavingsPercent(b, w) < 100.0
    ensures SavingsPercent(b, w) == 0.0 <==> b == w
  {
    var f := (w - b) / w;
    assert f * w == w - b;
    if f >= 1.0 {
      assert false;
    }
  }

  /** Rates depend only on whether and how the listed currencies are quoted. */
  lemma {:induction false} RatesOverOnlyListed(q1: Quotes, q2: Quotes, cs: seq<Currency>)
    requires InrQuote(q1) == InrQuote(q2)
    requires forall c: Currency :: Qualifies(q1, c) <==> Qualifies(q2, c)
    requires forall c: Currency :: Qualifies(q1, c) && Qualifies(q2, c) ==> q1[QuoteKey(c)] == q2[QuoteKey(c)]
    ensures RatesOver(q1, cs) == RatesOver(q2, cs)
  {
    if cs != [] {
      RatesOverOnlyListed(q1, q2, cs[..|cs| - 1]);
    }
  }

  /**
   * Quotes other than INR and the seven listed currencies never affect the outcome,
   * nor do non-positive quotes beyond being absent (main.py:104-109).
   */
  lemma OnlyListedQuotesMatter(d1: Payload, d2: Payload)
    requires BridgeAsset in d1 <==> BridgeAsset in d2
    requires BridgeAsset in d1 ==>
      var q1, q2 := d1[BridgeAsset], d2[BridgeAsset];
      && InrQuote(q1) == InrQuote(q2)
      && (forall c: Currency :: Qualifies(q1, c) <==> Qualifies(q2, c))
      && (forall c: Currency :: Qualifies(q1, c) && Qualifies(q2, c) ==> q1[QuoteKey(c)] == q2[QuoteKey(c)])
    ensures ForexReport(d1) == ForexReport(d2)
  {
    if BridgeAsset in d1 {
      RatesOverOnlyListed(d1[BridgeAsset], d2[BridgeAsset], Currencies);
    }
  }

  /** The loop of main.py:105-109: fills the rates dictionary in list order. */
  method ComputeRates(quotes: Quotes) returns (rates: seq<Rate>)
    ensures rates == RatesOver(quotes, Currencies)
  {
    var inr := InrQuote(quotes);
    rates := [];
    for i := 0 to |Currencies|
      invariant rates == RatesOver(quotes, Currencies[..i])
    {
      var c := Currencies[i];
      assert Currencies[..i + 1][..i] == Currencies[..i];
      if QuoteKey(c) in quotes && quotes[QuoteKey(c)] > 0.0 {
        rates := rates + [Rate(c, inr / quotes[QuoteKey(c)])];
      }
    }
    assert Currencies[..|Currencies|] == Currencies;
  }

  /** The loop of main.py:127-134: one line per sorted entry, with its marker. */
  method BuildLines(sorted: seq<Rate>, best: Currency, worst: Currency) returns (lines: seq<Line>)
    ensures lines == Lines(sorted, best, worst)
  {
    lines := [];
    for i := 0 to |sorted|
      invariant |lines| == i
      invariant forall k :: 0 <= k < i ==>
        lines[k] == Line(sorted[k].currency, sorted[k].perUnit, MarkerFor(sorted[k].currency, best, worst))
    {
      var marker: Marker;
      if sorted[i].currency == best {
        marker := BestRate;
      } else if sorted[i].currency == worst {
        marker := Highest;
      } else {
        marker := NoMarker;
      }
      lines := lines + [Line(sorted[i].currency, sorted[i].perUnit, marker)];
    }
  }

  /** `get_all_forex_rates` on a decoded provider response (main.py:91-142). */
  method GetAllForexRates(data: Payload) returns (out: Outcome)
    ensures out == ForexReport(data)
  {
    if BridgeAsset !in data {
      return NoTetherData;
    }
    var quotes := data[BridgeAsset];
    var inr := InrQuote(quotes);
    if inr == 0.0 {
      return NoInrData;
    }
    var rates := ComputeRates(quotes);
    if rates == [] {
      return NoRates;
    }
    NonzeroRates(quotes, Currencies);
    var best := rates[FirstMin(rates)];
    var worst := rates[FirstMax(rates)];
    var savings := SavingsPercent(best.perUnit, worst.perUnit);
    var lines := BuildLines(SortByRate(rates), best.currency, worst.currency);
    out := Ranked(lines, best.currency, best.perUnit, worst.currency, worst.perUnit, savings);
  }
}
