/**
  The exchange-rate query: validation of the day count and of the currency
  list, the list of dates ending today, the filtering of the provider's
  payload, and the one-result-per-date shape of a query.

  A date is a day number (today is a parameter); the provider's answer for a
  date is a parameter `answer: Date -> Fetch`, standing for the HTTP request
  made for that date.
 */
module ConsoleRates {
  import opened Wrappers
  import opened Exceptions
  import Strings

  /** A calendar day, as a day number; the source writes it as DD.MM.YYYY. */
  type Date = int

  const CURRENCIES: set<string> := {"CHF", "CZK", "EUR", "GBP", "PLN", "USD"}
  const DAYS_ERROR_MSG: string := "Days should be <int> between 1 and 10"
  /** The arguments `ExchangeRates()` defaults to. */
  const DEFAULT_DAYS: string := "1"
  const DEFAULT_CURRENCIES: string := "USD,EUR"

  /** The sale and purchase rates of one currency (floats in the source,
      only ever copied). */
  datatype Rate = Rate(sale: real, purchase: real)

  /** One element of the provider's `exchangeRate` array; a missing key is `None`. */
  datatype Entry = Entry(currency: Option<string>, saleRate: Option<real>, purchaseRate: Option<real>)

  /** The decoded JSON body; `exchangeRate` is `None` when the key is missing. */
  datatype Payload = Payload(exchangeRate: Option<seq<Entry>>)

  /** What the HTTP request for one date comes to. */
  datatype Fetch =
    | Answered(status: int, body: Option<Payload>)  // a response; body None: it is not JSON
    | ConnectorError                                // aiohttp.ClientConnectorError
    | RequestFailed                                 // any other exception raised by the request

  /** One element of the list `query()` returns: the map `{date: rates}`, or
      the exception `gather(..., return_exceptions=True)` put in its place. */
  datatype Slot = DayRates(rates: map<Date, map<string, Rate>>) | Raised(error: Exc)

  /** The two `ValueError`s of the constructor. */
  datatype RatesError = DaysError(message: string) | CurrenciesError

  // ---------------------------------------------------------------------------
  // set_days

  /** The day count `set_days` accepts: `int(days)` in 1..10. */
  function ParseDays(days: string): (r: Option<nat>)
    ensures r.Some? <==> exists n :: Strings.ParseInt(days) == Some(n) && 1 <= n <= 10
    ensures r.Some? ==> Strings.ParseInt(days) == Some(r.value as int)
  {
    match Strings.ParseInt(days)
    case Some(n) => if 1 <= n <= 10 then Some(n) else None
    case None => None
  }

  /** The dates `set_days` appends for `count` days ending `today`, as its
      loop over `range(count - 1, -1, -1)` builds them. */
  function DateList(count: nat, today: Date): (dates: seq<Date>)
    ensures |dates| == count
    ensures count > 0 ==> dates[count - 1] == today
  {
    if count == 0 then [] else DateList(count - 1, today - 1) + [today]
  }

  /** Date `i` of the list lies `count - 1 - i` days before today. */
  lemma {:induction false} DateListAt(count: nat, today: Date)
    ensures |DateList(count, today)| == count
    ensures forall i :: 0 <= i < count ==> DateList(count, today)[i] == today - (count - 1 - i)
  {
    if count > 0 {
      DateListAt(count - 1, today - 1);
    }
  }

  /** The dates are strictly increasing, oldest first, and end with today. */
  lemma DateListOrdered(count: nat, today: Date)
    ensures |DateList(count, today)| == count
    ensures forall i, j :: 0 <= i < j < count ==> DateList(count, today)[i] < DateList(count, today)[j]
    ensures count > 0 ==> DateList(count, today)[count - 1] == today
  {
    DateListAt(count, today);
  }

  // ---------------------------------------------------------------------------
  // set_currencies

  /** The codes `set_currencies` keeps: the pieces of `currencies.upper().split(',')`
      that are allowed. */
  function ValidCodes(currencies: string): (r: set<string>)
    ensures r <= CURRENCIES
  {
    set t | t in Strings.Split(Strings.Upper(currencies), ',') && t in CURRENCIES
  }

  /** `"usd,eur"` keeps both codes; so does the default `"USD,EUR"`. */
  lemma ValidCodesBoth()
    ensures ValidCodes("usd,eur") == {"USD", "EUR"}
    ensures ValidCodes(DEFAULT_CURRENCIES) == {"USD", "EUR"}
  {
    assert Strings.Upper("usd,eur") == "USD,EUR";
    UpperUsdEur("usd,eur");
    assert Strings.Upper(DEFAULT_CURRENCIES) == "USD,EUR";
    UpperUsdEur(DEFAULT_CURRENCIES);
  }

  /** Any spelling of `"USD,EUR"` keeps both codes. */
  lemma UpperUsdEur(currencies: string)
    requires Strings.Upper(currencies) == "USD,EUR"
    ensures ValidCodes(currencies) == {"USD", "EUR"}
  {
    assert "USD" + "," + "EUR" == "USD,EUR";
    SplitPair("USD", "EUR");
    assert "USD" in CURRENCIES && "EUR" in CURRENCIES;
    assert forall t :: t in ["USD", "EUR"] <==> t == "USD" || t == "EUR";
  }

  /** `"usd,xyz"` keeps USD and drops the unknown code. */
  lemma ValidCodesDropsUnknown()
    ensures ValidCodes("usd,xyz") == {"USD"}
  {
    assert Strings.Upper("usd,xyz") == "USD,XYZ";
    assert "USD" + "," + "XYZ" == "USD,XYZ";
    SplitPair("USD", "XYZ");
    assert "USD" in CURRENCIES && "XYZ" !in CURRENCIES;
    assert forall t :: t in ["USD", "XYZ"] <==> t == "USD" || t == "XYZ";
  }

  /** `"xyz"` keeps nothing, so `set_currencies` raises. */
  lemma ValidCodesNone()
    ensures ValidCodes("xyz") == {}
  {
    assert Strings.Upper("xyz") == "XYZ";
    Strings.SplitWithoutSeparator("XYZ", ',');
  }

  lemma SplitPair(a: string, b: string)
    requires |a| == 3 && |b| == 3 && ',' !in a && ',' !in b
    ensures Strings.Split(a + "," + b, ',') == [a, b]
  {
    var s := a + "," + b;
    assert s[..3] == a && s[4..] == b && ',' !in s[..3];
    Strings.SplitAtFirst(s, ',', 3);
    Strings.SplitWithoutSeparator(b, ',');
  }

  // ---------------------------------------------------------------------------
  // rates_by_currency

  /** Reading this entry in the comprehension raises no KeyError. */
  predicate Readable(e: Entry, wanted: set<string>) {
    e.currency.Some? && (e.currency.value in wanted ==> e.saleRate.Some? && e.purchaseRate.Some?)
  }

  /** `{'sale': d['saleRate'], 'purchase': d['purchaseRate']}` */
  function RateOf(e: Entry): Rate
    requires e.saleRate.Some? && e.purchaseRate.Some?
  {
    Rate(e.saleRate.value, e.purchaseRate.value)
  }

  /** The dict comprehension of `rates_by_currency` over `entries`, later
      entries overwriting earlier ones; `None` where it raises KeyError. */
  function FilterEntries(entries: seq<Entry>, wanted: set<string>): (r: Option<map<string, Rate>>)
    ensures r.Some? ==> r.value.Keys <= wanted
  {
    if entries == [] then Some(map[])
    else
      var e := entries[|entries| - 1];
      match FilterEntries(entries[..|entries| - 1], wanted)
      case None => None
      case Some(m) =>
        if e.currency.None? then None
        else if e.currency.value !in wanted then Some(m)
        else if e.saleRate.None? || e.purchaseRate.None? then None
        else Some(m[e.currency.value := RateOf(e)])
  }

  /** `rates_by_currency(data)`; `None` where it raises KeyError: when the
      payload has no `exchangeRate`, or one of its entries cannot be read. */
  function RatesByCurrency(data: Payload, wanted: set<string>): (r: Option<map<string, Rate>>)
    ensures r.Some? <==>
      && data.exchangeRate.Some?
      && forall i :: 0 <= i < |data.exchangeRate.value| ==> Readable(data.exchangeRate.value[i], wanted)
    ensures r.Some? ==> r.value.Keys <= wanted
  {
    match data.exchangeRate
    case None => None
    case Some(entries) =>
      FilterEntriesDefined(entries, wanted);
      FilterEntries(entries, wanted)
  }

  /** Rate `r` holds the entry's sale and purchase rates. */
  predicate CopiedFrom(e: Entry, r: Rate) {
    e.saleRate == Some(r.sale) && e.purchaseRate == Some(r.purchase)
  }

  /** Entry `i` is the last one naming currency `c`. */
  ghost predicate LastFor(entries: seq<Entry>, c: string, i: int) {
    && 0 <= i < |entries| && entries[i].currency == Some(c)
    && forall j :: i < j < |entries| ==> entries[j].currency != Some(c)
  }

  /** The comprehension raises exactly when some entry has no currency, or a
      wanted entry has no sale or purchase rate. */
  lemma {:induction false} FilterEntriesDefined(entries: seq<Entry>, wanted: set<string>)
    ensures FilterEntries(entries, wanted).Some? <==> forall i :: 0 <= i < |entries| ==> Readable(entries[i], wanted)
  {
    if entries != [] {
      var init := entries[..|entries| - 1];
      FilterEntriesDefined(init, wanted);
      assert forall i :: 0 <= i < |init| ==> init[i] == entries[i];
    }
  }

  /** Some entry names currency `c`. */
  ghost predicate Names(entries: seq<Entry>, c: string) {
    exists i :: 0 <= i < |entries| && entries[i].currency == Some(c)
  }

  /** The keys are exactly the wanted currencies that some entry names. */
  lemma {:induction false} FilterEntriesKeys(entries: seq<Entry>, wanted: set<string>)
    requires FilterEntries(entries, wanted).Some?
    ensures forall c :: c in FilterEntries(entries, wanted).value <==> c in wanted && Names(entries, c)
  {
    if entries != [] {
      var n := |entries| - 1;
      var init := entries[..n];
      FilterEntriesKeys(init, wanted);
      var m := FilterEntries(entries, wanted).value;
      forall c
        ensures c in m <==> c in wanted && Names(entries, c)
      {
        if Names(init, c) {
          var i :| 0 <= i < n && init[i].currency == Some(c);
          assert entries[i].currency == Some(c);
        }
        if Names(entries, c) && entries[n].currency != Some(c) {
          var i :| 0 <= i < |entries| && entries[i].currency == Some(c);
          assert init[i].currency == Some(c);
        }
      }
    }
  }

  /** The value for `c` after one more entry: the new entry's rates when
      it names `c`, otherwise the value from the earlier entries. */
  lemma LastWinsStep(entries: seq<Entry>, wanted: set<string>, c: string)
    requires entries != [] && FilterEntries(entries, wanted).Some?
    requires var init := entries[..|entries| - 1];
      forall c :: c in FilterEntries(init, wanted).value ==>
        exists i :: LastFor(init, c, i) && CopiedFrom(init[i], FilterEntries(init, wanted).value[c])
    requires c in FilterEntries(entries, wanted).value
    ensures exists i :: LastFor(entries, c, i) && CopiedFrom(entries[i], FilterEntries(entries, wanted).value[c])
  {
    var n := |entries| - 1;
    var init := entries[..n];
    var e := entries[n];
    var m0 := FilterEntries(init, wanted).value;
    var m := FilterEntries(entries, wanted).value;
    assert entries == init + [e];
    if e.currency == Some(c) {
      FilterEntriesKeys(init, wanted);
      assert c in wanted;
      assert m == m0[c := RateOf(e)];
      assert LastFor(entries, c, n);
    } else {
      assert c in m0;
      var i :| LastFor(init, c, i) && CopiedFrom(init[i], m0[c]);
      assert entries[i] == init[i];
      assert LastFor(entries, c, i);
    }
  }

  /** Each value is copied from the last entry naming its currency. */
  lemma {:induction false} FilterEntriesLastWins(entries: seq<Entry>, wanted: set<string>)
    requires FilterEntries(entries, wanted).Some?
    ensures var m := FilterEntries(entries, wanted).value;
      forall c :: c in m ==> exists i :: LastFor(entries, c, i) && CopiedFrom(entries[i], m[c])
  {
    if entries != [] {
      FilterEntriesLastWins(entries[..|entries| - 1], wanted);
      forall c | c in FilterEntries(entries, wanted).value
        ensures exists i :: LastFor(entries, c, i) && CopiedFrom(entries[i], FilterEntries(entries, wanted).value[c])
      {
        LastWinsStep(entries, wanted, c);
      }
    }
  }

  // ---------------------------------------------------------------------------
  // get_rates and query

  /** `get_rates(session, date)` given the outcome of its request. */
  function GetRates(wanted: set<string>, date: Date, fetch: Fetch): (r: Slot)
    ensures r.DayRates? ==> r.rates.Keys == {date}
    ensures fetch.ConnectorError? || (fetch.Answered? && fetch.status >= 400) ==> r == DayRates(map[date := map[]])
    ensures r.DayRates? <==>
      || fetch.ConnectorError?
      || (fetch.Answered? && (fetch.status >= 400 || (fetch.body.Some? && RatesByCurrency(fetch.body.value, wanted).Some?)))
    ensures fetch.Answered? && fetch.status < 400 && fetch.body.Some? && r.DayRates? ==>
      RatesByCurrency(fetch.body.value, wanted) == Some(r.rates[date])
    ensures r.DayRates? && r.rates[date] != map[] ==>
      fetch.Answered? && fetch.status < 400 && fetch.body.Some?
  {
    match fetch
    case ConnectorError => DayRates(map[date := map[]])
    case RequestFailed => Raised(RequestError)
    case Answered(status, body) =>
      if status >= 400 then DayRates(map[date := map[]])  // response.ok is status < 400
      else match body
        case None => Raised(RequestError)
        case Some(data) =>
          match RatesByCurrency(data, wanted)
          case None => Raised(KeyError)
          case Some(rates) => DayRates(map[date := rates])
  }

  /** The results of a query over `dates`, one per date, in the order of the dates. */
  function Fetches(wanted: set<string>, dates: seq<Date>, answer: Date -> Fetch): (results: seq<Slot>)
    ensures |results| == |dates|
    ensures forall i :: 0 <= i < |dates| && results[i].DayRates? ==> results[i].rates.Keys == {dates[i]}
  {
    seq(|dates|, i requires 0 <= i < |dates| => GetRates(wanted, dates[i], answer(dates[i])))
  }

  /** Result `i` of a query over `count` days is the exception of that date's
      request or the map keyed by date `i` alone; a refused connection or an
      error status leaves that date with empty rates and no other date changes. */
  lemma QueryShape(wanted: set<string>, count: nat, today: Date, answer: Date -> Fetch, i: nat)
    requires i < count
    ensures |Fetches(wanted, DateList(count, today), answer)| == count
    ensures var s := Fetches(wanted, DateList(count, today), answer)[i];
      s.DayRates? ==> s.rates.Keys == {today - (count - 1 - i)}
    ensures var d := today - (count - 1 - i);
      answer(d).ConnectorError? ==> Fetches(wanted, DateList(count, today), answer)[i] == DayRates(map[d := map[]])
  {
    DateListAt(count, today);
  }

  // ---------------------------------------------------------------------------
  // the ExchangeRates object

  class ExchangeRates {
    var days: seq<Date>
    var currencies: set<string>

    /** The object before `__init__`'s body runs. */
    constructor ()
      ensures days == [] && currencies == {}
    {
      days := [];
      currencies := {};
    }

    /** `__init__(days, currencies)`: `set_days`, then `set_currencies`. */
    method Init(daysText: string, currenciesText: string, today: Date) returns (err: Option<RatesError>)
      modifies this
      ensures ParseDays(daysText).None? ==>
        err == Some(DaysError(DAYS_ERROR_MSG)) && days == [] && currencies == old(currencies)
      ensures ParseDays(daysText).Some? ==>
        && days == DateList(ParseDays(daysText).value, today)
        && currencies == ValidCodes(currenciesText)
        && (err == None <==> currencies != {})
        && (err != None ==> err == Some(CurrenciesError))
    {
      err := SetDays(daysText, today);
      if err.Some? {
        return;
      }
      err := SetCurrencies(currenciesText);
    }

    /** `set_days(days)` */
    method SetDays(daysText: string, today: Date) returns (err: Option<RatesError>)
      modifies this`days
      ensures ParseDays(daysText).None? ==> err == Some(DaysError(DAYS_ERROR_MSG)) && days == []
      ensures ParseDays(daysText).Some? ==> err == None && days == DateList(ParseDays(daysText).value, today)
    {
      days := [];
      var parsed := Strings.ParseInt(daysText);
      if parsed.None? {
        return Some(DaysError(DAYS_ERROR_MSG));
      }
      var dayCount := parsed.value;
      if !(10 >= dayCount >= 1) {
        return Some(DaysError(DAYS_ERROR_MSG));
      }
      var d := dayCount - 1;
      while d >= 0
        invariant -1 <= d < dayCount
        invariant days == DateList(dayCount - 1 - d, today - d - 1)
      {
        days := days + [today - d];
        d := d - 1;
      }
      return None;
    }

    /** `set_currencies(currencies)` */
    method SetCurrencies(currenciesText: string) returns (err: Option<RatesError>)
      modifies this`currencies
      ensures currencies == ValidCodes(currenciesText)
      ensures err == None <==> currencies != {}
      ensures err != None ==> err == Some(CurrenciesError)
    {
      currencies := {};
      var tokens := Strings.Split(Strings.Upper(currenciesText), ',');
      for i := 0 to |tokens|
        invariant currencies == set t | t in tokens[..i] && t in CURRENCIES
      {
        if tokens[i] in CURRENCIES {
          currencies := currencies + {tokens[i]};
        }
        assert tokens[..i + 1] == tokens[..i] + [tokens[i]];
      }
      assert tokens[..|tokens|] == tokens;
      if currencies == {} {
        return Some(CurrenciesError);
      }
      return None;
    }

    /** `query()`: one result per element of `days`, in that order. */
    method Query(answer: Date -> Fetch) returns (result: seq<Slot>)
      ensures |result| == |days|
      ensures forall i :: 0 <= i < |days| ==> result[i] == GetRates(currencies, days[i], answer(days[i]))
      ensures result == Fetches(currencies, days, answer)
    {
      result := [];
      for i := 0 to |days|
        invariant |result| == i
        invariant forall j :: 0 <= j < i ==> result[j] == GetRates(currencies, days[j], answer(days[j]))
      {
        result := result + [GetRates(currencies, days[i], answer(days[i]))];
      }
      assert forall j :: 0 <= j < |days| ==> result[j] == Fetches(currencies, days, answer)[j];
    }
  }
}
