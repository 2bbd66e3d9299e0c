/** Indicative price for a route and month: request validation, the cache
    key, and the normalizer that reduces the provider's quotes to the
    cheapest one and resolves its carrier's name. */
module Indicative {
  import opened Wrappers
  import opened Common
  import opened Text

  /** The client's request body. The destination arrives as
      `destinationEntityId` at the Express server and as `destinationIata`
      at the serverless function; both fields are kept so that each
      deployment reads its own. `year` and `month` are JSON numbers. */
  datatype Body = Body(
    originIata: Option<string>,
    destinationIata: Option<string>,
    destinationEntityId: Option<string>,
    year: Option<nat>,
    month: Option<nat>,
    market: Option<string>,
    currency: Option<string>)

  /** `minPrice` of a quote; `amount` is the integer `parseInt` reads from
      the provider's digit string. */
  datatype MinPrice = MinPrice(amount: Option<nat>, unit: Option<string>)
  datatype Leg = Leg(marketingCarrierId: Option<string>)
  datatype Quote = Quote(minPrice: Option<MinPrice>, isDirect: Option<bool>, outboundLeg: Option<Leg>)
  datatype Carrier = Carrier(name: Option<string>)

  /** The `quotes` object is the sequence `Object.values` yields; `carriers`
      is looked up by id. Either may sit under `content.results` or at the
      top level. */
  datatype Results = Results(quotes: Option<seq<Quote>>, carriers: Option<map<string, Carrier>>)
  datatype Content = Content(results: Option<Results>)
  datatype Payload = Payload(content: Option<Content>, quotes: Option<seq<Quote>>, carriers: Option<map<string, Carrier>>)

  /** The response body: `{minPrice, currency, isDirect, carrier, hasData:
      true}` or `{minPrice: null, currency, hasData: false}`. */
  datatype PriceResult =
    | Priced(minPrice: real, currency: string, isDirect: bool, carrier: Option<string>)
    | NoPrice(currency: string)
  {
    predicate HasData() { Priced? }
  }

  const CENTI := "PRICE_UNIT_CENTI"
  const DEFAULT_MARKET := "UK"
  const DEFAULT_CURRENCY := "GBP"
  const KEY_TAG := "flights"

  // ---------------------------------------------------------------------
  // Validation and cache key
  // ---------------------------------------------------------------------

  function Destination(body: Body, d: Deployment): Option<string> {
    match d
    case ExpressServer => body.destinationEntityId
    case Serverless => body.destinationIata
  }

  /** Each deployment names its own destination field in the message. */
  function RequiredMessage(d: Deployment): string {
    match d
    case ExpressServer => "originIata, destinationEntityId, year, month are required"
    case Serverless => "originIata, destinationIata, year, month are required"
  }

  /** All four required fields are truthy. */
  predicate Valid(body: Body, d: Deployment): (ok: bool)
    ensures ok <==> && body.originIata.Some? && |body.originIata.value| > 0
                    && Destination(body, d).Some? && |Destination(body, d).value| > 0
                    && body.year.Some? && body.year.value > 0
                    && body.month.Some? && body.month.value > 0
  {
    Truthy(body.originIata) && Truthy(Destination(body, d)) && TruthyNat(body.year) && TruthyNat(body.month)
  }

  function Market(body: Body): string {
    OrElse(body.market, DEFAULT_MARKET)
  }

  function Currency(body: Body): string {
    OrElse(body.currency, DEFAULT_CURRENCY)
  }

  function YearMonth(body: Body): string {
    Join([NatToString(body.year.GetOr(0)), NatToString(body.month.GetOr(0))], '-')
  }

  function KeyFields(body: Body, d: Deployment): seq<string> {
    [KEY_TAG, OrElse(body.originIata, ""), OrElse(Destination(body, d), ""), YearMonth(body), Market(body), Currency(body)]
  }

  /** `flights:<origin>:<destination>:<year>-<month>:<market>:<currency>`. */
  function Key(body: Body, d: Deployment): (k: string)
    ensures Split(k, ':')[0] == KEY_TAG
  {
    SplitJoinHead(KeyFields(body, d), ':');
    Join(KeyFields(body, d), ':')
  }

  lemma YearMonthExact(a: Body, b: Body)
    ensures ':' !in YearMonth(a)
    ensures YearMonth(a) == YearMonth(b) <==> a.year.GetOr(0) == b.year.GetOr(0) && a.month.GetOr(0) == b.month.GetOr(0)
  {
    var xs := [NatToString(a.year.GetOr(0)), NatToString(a.month.GetOr(0))];
    var ys := [NatToString(b.year.GetOr(0)), NatToString(b.month.GetOr(0))];
    DigitsAvoid(xs[0], '-');
    DigitsAvoid(xs[1], '-');
    DigitsAvoid(ys[0], '-');
    DigitsAvoid(ys[1], '-');
    DigitsAvoid(xs[0], ':');
    DigitsAvoid(xs[1], ':');
    JoinAvoids(xs, '-', ':');
    JoinInjective(xs, ys, '-');
    NatToStringInjective(a.year.GetOr(0), b.year.GetOr(0));
    NatToStringInjective(a.month.GetOr(0), b.month.GetOr(0));
    if YearMonth(a) == YearMonth(b) {
      assert xs[0] == ys[0] && xs[1] == ys[1];
    }
  }

  /** For valid requests whose text fields hold no colon, two requests share
      a key exactly when origin, destination, year, month, market and
      currency (after their defaults) all agree. */
  lemma KeyExact(a: Body, b: Body, d: Deployment)
    requires Valid(a, d) && Valid(b, d)
    requires FreeOf([a.originIata.value, Destination(a, d).value, Market(a), Currency(a)], ':')
    requires FreeOf([b.originIata.value, Destination(b, d).value, Market(b), Currency(b)], ':')
    ensures Key(a, d) == Key(b, d) <==>
            && a.originIata == b.originIata
            && Destination(a, d) == Destination(b, d)
            && a.year == b.year && a.month == b.month
            && Market(a) == Market(b) && Currency(a) == Currency(b)
  {
    var xs := KeyFields(a, d);
    var ys := KeyFields(b, d);
    YearMonthExact(a, b);
    YearMonthExact(b, a);
    assert a.originIata.value in [a.originIata.value, Destination(a, d).value, Market(a), Currency(a)];
    assert Destination(a, d).value in [a.originIata.value, Destination(a, d).value, Market(a), Currency(a)];
    assert Market(a) in [a.originIata.value, Destination(a, d).value, Market(a), Currency(a)];
    assert Currency(a) in [a.originIata.value, Destination(a, d).value, Market(a), Currency(a)];
    assert b.originIata.value in [b.originIata.value, Destination(b, d).value, Market(b), Currency(b)];
    assert Destination(b, d).value in [b.originIata.value, Destination(b, d).value, Market(b), Currency(b)];
    assert Market(b) in [b.originIata.value, Destination(b, d).value, Market(b), Currency(b)];
    assert Currency(b) in [b.originIata.value, Destination(b, d).value, Market(b), Currency(b)];
    assert FreeOf(xs, ':');
    assert FreeOf(ys, ':');
    JoinInjective(xs, ys, ':');
    if Key(a, d) == Key(b, d) {
      assert xs[1] == ys[1] && xs[2] == ys[2] && xs[3] == ys[3] && xs[4] == ys[4] && xs[5] == ys[5];
    }
  }

  /** A missing market or currency is the UK market and pounds sterling. */
  lemma KeyDefaults(b: Body, d: Deployment)
    ensures Key(b.(market := None, currency := None), d)
         == Key(b.(market := Some(DEFAULT_MARKET), currency := Some(DEFAULT_CURRENCY)), d)
  {
  }

  // ---------------------------------------------------------------------
  // Normalizer
  // ---------------------------------------------------------------------

  /** `data.content?.results?.quotes || data.quotes || {}`: the nested
      quotes whenever present, even if empty. */
  function Quotes(payload: Payload): (qs: seq<Quote>)
    ensures payload.content.Some? && payload.content.value.results.Some? && payload.content.value.results.value.quotes.Some?
            ==> qs == payload.content.value.results.value.quotes.value
    ensures !(payload.content.Some? && payload.content.value.results.Some? && payload.content.value.results.value.quotes.Some?)
            ==> qs == payload.quotes.GetOr([])
  {
    match payload.content
    case Some(Content(Some(Results(Some(qs), _)))) => qs
    case _ => payload.quotes.GetOr([])
  }

  /** The same choice for `carriers`, made independently of the quotes. */
  function Carriers(payload: Payload): (cs: map<string, Carrier>)
    ensures payload.content.Some? && payload.content.value.results.Some? && payload.content.value.results.value.carriers.Some?
            ==> cs == payload.content.value.results.value.carriers.value
    ensures !(payload.content.Some? && payload.content.value.results.Some? && payload.content.value.results.value.carriers.Some?)
            ==> cs == payload.carriers.GetOr(map[])
  {
    match payload.content
    case Some(Content(Some(Results(_, Some(cs))))) => cs
    case _ => payload.carriers.GetOr(map[])
  }

  /** The quote's price in major units, when it has an amount. */
  function Price(q: Quote): (p: Option<real>)
    ensures p.Some? <==> q.minPrice.Some? && q.minPrice.value.amount.Some?
    ensures p.Some? && q.minPrice.value.unit == Some(CENTI) ==> 100.0 * p.value == q.minPrice.value.amount.value as real
    ensures p.Some? && q.minPrice.value.unit != Some(CENTI) ==> p.value == q.minPrice.value.amount.value as real
  {
    match q.minPrice
    case Some(MinPrice(Some(amount), unit)) =>
      Some(if unit == Some(CENTI) then amount as real / 100.0 else amount as real)
    case _ => None
  }

  /** `quote.isDirect || false`. */
  function Direct(q: Quote): bool {
    q.isDirect == Some(true)
  }

  /** `quote.outboundLeg?.marketingCarrierId || null`. */
  function CarrierId(q: Quote): (id: Option<string>)
    ensures id.Some? ==> id.value != ""
    ensures q.outboundLeg.Some? && Truthy(q.outboundLeg.value.marketingCarrierId) ==> id == q.outboundLeg.value.marketingCarrierId
    ensures id.Some? ==> q.outboundLeg.Some? && id == q.outboundLeg.value.marketingCarrierId
  {
    match q.outboundLeg
    case Some(Leg(c)) => if Truthy(c) then c else None
    case None => None
  }

  /** The loop's three variables. */
  datatype Best = Best(price: real, isDirect: bool, carrierId: Option<string>)

  function BestOf(q: Quote): Best
    requires Price(q).Some?
  {
    Best(Price(q).value, Direct(q), CarrierId(q))
  }

  /** The loop from quote `k` on: a priced quote replaces the held one only
      when strictly cheaper. */
  function Scan(qs: seq<Quote>, k: nat, best: Option<Best>): (r: Option<Best>)
    requires k <= |qs|
    ensures best.Some? ==> r.Some? && r.value.price <= best.value.price
    ensures r.Some? ==> forall j :: k <= j < |qs| && Price(qs[j]).Some? ==> r.value.price <= Price(qs[j]).value
    decreases |qs| - k
  {
    if k == |qs| then best
    else
      match Price(qs[k])
      case None => Scan(qs, k + 1, best)
      case Some(p) =>
        if best.None? || p < best.value.price then Scan(qs, k + 1, Some(BestOf(qs[k])))
        else Scan(qs, k + 1, best)
  }

  /** Quote `i` is priced, no priced quote among the first `k` is cheaper,
      and every priced quote before `i` is dearer: it is the earliest
      cheapest among the first `k`. */
  predicate FirstCheapestBelow(qs: seq<Quote>, i: nat, k: nat) {
    && i < k <= |qs|
    && Price(qs[i]).Some?
    && (forall j :: 0 <= j < k && Price(qs[j]).Some? ==> Price(qs[i]).value <= Price(qs[j]).value)
    && (forall j :: 0 <= j < i && Price(qs[j]).Some? ==> Price(qs[j]).value > Price(qs[i]).value)
  }

  predicate NonePriced(qs: seq<Quote>, k: nat)
    requires k <= |qs|
  {
    forall j :: 0 <= j < k ==> Price(qs[j]).None?
  }

  lemma StepUnpriced(qs: seq<Quote>, i: nat, k: nat)
    requires k < |qs| && Price(qs[k]).None?
    ensures NonePriced(qs, k) ==> NonePriced(qs, k + 1)
    ensures FirstCheapestBelow(qs, i, k) ==> FirstCheapestBelow(qs, i, k + 1)
  {
  }

  lemma StepCheaper(qs: seq<Quote>, i: nat, k: nat)
    requires k < |qs| && Price(qs[k]).Some?
    requires NonePriced(qs, k) || (FirstCheapestBelow(qs, i, k) && Price(qs[k]).value < Price(qs[i]).value)
    ensures FirstCheapestBelow(qs, k, k + 1)
  {
  }

  lemma StepNotCheaper(qs: seq<Quote>, i: nat, k: nat)
    requires k < |qs| && Price(qs[k]).Some?
    requires FirstCheapestBelow(qs, i, k) && Price(qs[k]).value >= Price(qs[i]).value
    ensures FirstCheapestBelow(qs, i, k + 1)
  {
  }

  lemma {:induction false} ScanFrom(qs: seq<Quote>, k: nat, best: Option<Best>, i: nat) returns (w: nat)
    requires k <= |qs|
    requires best.None? ==> NonePriced(qs, k)
    requires best.Some? ==> FirstCheapestBelow(qs, i, k) && best.value == BestOf(qs[i])
    ensures Scan(qs, k, best).None? <==> NonePriced(qs, |qs|)
    ensures Scan(qs, k, best).Some? ==> FirstCheapestBelow(qs, w, |qs|) && Scan(qs, k, best).value == BestOf(qs[w])
    decreases |qs| - k
  {
    if k == |qs| {
      w := i;
    } else if Price(qs[k]).None? {
      StepUnpriced(qs, i, k);
      w := ScanFrom(qs, k + 1, best, i);
    } else if best.None? || Price(qs[k]).value < best.value.price {
      StepCheaper(qs, i, k);
      w := ScanFrom(qs, k + 1, Some(BestOf(qs[k])), k);
    } else {
      StepNotCheaper(qs, i, k);
      w := ScanFrom(qs, k + 1, best, i);
    }
  }

  /** The scan ends holding nothing exactly when no quote has an amount, and
      otherwise the price, directness and carrier of the earliest of the
      cheapest quotes, whose index is returned. */
  lemma ScanFindsFirstCheapest(qs: seq<Quote>) returns (w: nat)
    ensures Scan(qs, 0, None).None? <==> NonePriced(qs, |qs|)
    ensures Scan(qs, 0, None).Some? ==> FirstCheapestBelow(qs, w, |qs|) && Scan(qs, 0, None).value == BestOf(qs[w])
  {
    w := ScanFrom(qs, 0, None, 0);
  }

  /** The carrier's display name, looked up only for a present id. */
  function ResolveCarrier(payload: Payload, id: Option<string>): (name: Option<string>)
    ensures name.Some? ==> id.Some? && id.value in Carriers(payload) && Carriers(payload)[id.value].name == name
    ensures id.Some? && id.value in Carriers(payload) ==> name == Carriers(payload)[id.value].name
  {
    match id
    case None => None
    case Some(c) => if c in Carriers(payload) then Carriers(payload)[c].name else None
  }

  /** The response for a fetched payload; `currency` is the request's
      currency after its default. */
  function Normalize(payload: Payload, currency: string): (r: PriceResult)
    ensures r.currency == currency
  {
    match Scan(Quotes(payload), 0, None)
    case None => NoPrice(currency)
    case Some(best) => Priced(best.price, currency, best.isDirect, ResolveCarrier(payload, best.carrierId))
  }

  /** The response has no data exactly when no quote has an amount;
      otherwise its price, directness and carrier come from the earliest of
      the cheapest quotes. */
  lemma NormalizeCharacterised(payload: Payload, currency: string)
    ensures var qs := Quotes(payload);
            && (Normalize(payload, currency).NoPrice? <==> forall j :: 0 <= j < |qs| ==> Price(qs[j]).None?)
            && (Normalize(payload, currency).Priced? ==>
                  exists w: nat :: FirstCheapestBelow(qs, w, |qs|)
                    && Normalize(payload, currency).minPrice == Price(qs[w]).value
                    && Normalize(payload, currency).isDirect == Direct(qs[w])
                    && Normalize(payload, currency).carrier == ResolveCarrier(payload, CarrierId(qs[w])))
  {
    var w := ScanFindsFirstCheapest(Quotes(payload));
  }

  /** 150.00 in hundredths against 120 in whole units: 120 wins. */
  lemma CentiExample()
    ensures var q1 := Quote(Some(MinPrice(Some(15000), Some(CENTI))), None, None);
            var q2 := Quote(Some(MinPrice(Some(120), Some("PRICE_UNIT_WHOLE"))), None, None);
            Normalize(Payload(None, Some([q1, q2]), None), DEFAULT_CURRENCY) == Priced(120.0, DEFAULT_CURRENCY, false, None)
  {
    var q1 := Quote(Some(MinPrice(Some(15000), Some(CENTI))), None, None);
    var q2 := Quote(Some(MinPrice(Some(120), Some("PRICE_UNIT_WHOLE"))), None, None);
    var qs := [q1, q2];
    assert Price(q1) == Some(150.0);
    assert Price(q2) == Some(120.0);
    assert Scan(qs, 0, None) == Scan(qs, 1, Some(BestOf(q1)));
    assert Scan(qs, 1, Some(BestOf(q1))) == Scan(qs, 2, Some(BestOf(q2)));
  }

  /** Equal prices keep the first quote's directness and carrier. */
  lemma TieKeepsFirst()
    ensures var q1 := Quote(Some(MinPrice(Some(120), None)), Some(false), Some(Leg(Some("A"))));
            var q2 := Quote(Some(MinPrice(Some(12000), Some(CENTI))), Some(true), Some(Leg(Some("B"))));
            Normalize(Payload(None, Some([q1, q2]), Some(map["A" := Carrier(Some("Alpha")), "B" := Carrier(Some("Beta"))])), DEFAULT_CURRENCY)
              == Priced(120.0, DEFAULT_CURRENCY, false, Some("Alpha"))
  {
    var q1 := Quote(Some(MinPrice(Some(120), None)), Some(false), Some(Leg(Some("A"))));
    var q2 := Quote(Some(MinPrice(Some(12000), Some(CENTI))), Some(true), Some(Leg(Some("B"))));
    var qs := [q1, q2];
    assert Price(q1) == Some(120.0);
    assert Price(q2) == Some(120.0);
    assert Scan(qs, 0, None) == Scan(qs, 1, Some(BestOf(q1)));
    assert Scan(qs, 1, Some(BestOf(q1))) == Scan(qs, 2, Some(BestOf(q1)));
  }
}
