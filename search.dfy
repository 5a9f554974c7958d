/**
 * `GET /api/search`: reading the numeric query parameters and building the
 * `filters.AND` list of conditions for the service query.
 */
module Search {
  import opened Wrappers
  import opened JsText

  /** A query parameter as `URLSearchParams.get` returns it: null when absent, else its text. */
  datatype Param = Absent | Given(text: string)

  /** A JavaScript number as far as this route needs: NaN or a value. */
  datatype Number = NaN | Num(value: real)

  /**
   * `validateNumber` as written: `value === "" || isNaN(value) ? defaultValue : parseFloat(value)`.
   * For an absent parameter `isNaN(null)` is false, so `parseFloat(null)` runs and gives NaN.
   */
  function ValidateNumberAsWritten(value: Param, defaultValue: real): Number
  {
    match value
    case Absent => NaN
    case Given(s) =>
      if s == "" then Num(defaultValue)
      else match NumberOf(s)
        case None => Num(defaultValue)
        case Some(v) => Num(v)
  }

  /** `validateNumber` with an absent parameter also taking the default, as the route's defaults intend. */
  function ValidateNumber(value: Param, defaultValue: real): (r: real)
    ensures value.Absent? ==> r == defaultValue
    ensures value.Given? && (value.text == "" || NumberOf(value.text).None?) ==> r == defaultValue
    ensures value.Given? && NumberOf(value.text).Some? ==> r == NumberOf(value.text).value
  {
    match value
    case Absent => defaultValue
    case Given(s) =>
      if s == "" then defaultValue
      else match NumberOf(s)
        case None => defaultValue
        case Some(v) => v
  }

  /** The two readings agree on every parameter that is present. */
  lemma ValidateNumberAgreesWhenGiven(s: string, defaultValue: real)
    ensures ValidateNumberAsWritten(Given(s), defaultValue) == Num(ValidateNumber(Given(s), defaultValue))
  {
    if s == [] {
    } else {
      assert s != "";
    }
  }

  /** As written, a request without `minPrice` filters on NaN instead of the default 0. */
  lemma AbsentParamGivesNaN()
    ensures ValidateNumberAsWritten(Absent, 0.0) == NaN
    ensures ValidateNumber(Absent, 0.0) == 0.0
  {
  }

  /** A whole number written out by the client (`toString`) is read back unchanged. */
  lemma ValidateNumberReadsWholeNumbers(n: nat, defaultValue: real)
    ensures ValidateNumber(Given(NatToString(n)), defaultValue) == n as real
  {
    NatRoundTrip(n);
  }

  const DEFAULT_MIN_PRICE: real := 0.0
  const DEFAULT_MAX_PRICE: real := 1000.0
  const DEFAULT_RATING: real := 0.0

  datatype SearchParams = SearchParams(query: Param, location: Param, minPrice: Param, maxPrice: Param, rating: Param)

  /** One entry of `filters.AND`. */
  datatype Condition =
    | TextMatch(query: string)           // type, name or description contains it, ignoring case
    | LocationMatch(location: string)    // location contains it, ignoring case
    | PriceRange(gte: real, lte: real)
    | MinRating(rating: real)

  /** `queryParams.get(name) || ""`. */
  function TextOf(p: Param): string
  {
    match p
    case Absent => ""
    case Given(s) => s
  }

  /** The conditions for read parameter values: text, location, price and rating, the optional ones only when set. */
  function ConditionsOf(query: string, location: string, minPrice: real, maxPrice: real, rating: real): seq<Condition>
  {
    (if query != "" then [TextMatch(query)] else [])
    + (if location != "" then [LocationMatch(location)] else [])
    + [PriceRange(minPrice, maxPrice)]
    + (if rating > 0.0 then [MinRating(rating)] else [])
  }

  /** The conditions a request yields, once its parameters are read with their defaults. */
  function Conditions(params: SearchParams): seq<Condition>
  {
    ConditionsOf(TextOf(params.query), TextOf(params.location),
                 ValidateNumber(params.minPrice, DEFAULT_MIN_PRICE), ValidateNumber(params.maxPrice, DEFAULT_MAX_PRICE),
                 ValidateNumber(params.rating, DEFAULT_RATING))
  }

  /**
   * A request that sets no parameter yields the price range alone, with the default
   * bounds; as written, the same request filters on NaN bounds instead.
   */
  lemma NoParamsDefaults()
    ensures Conditions(SearchParams(Absent, Absent, Absent, Absent, Absent))
         == [PriceRange(DEFAULT_MIN_PRICE, DEFAULT_MAX_PRICE)]
    ensures ValidateNumberAsWritten(Absent, DEFAULT_MIN_PRICE) == NaN
    ensures ValidateNumberAsWritten(Absent, DEFAULT_MAX_PRICE) == NaN
  {
  }

  /**
   * The `conditions` array, built by `push` from the read parameter values; `filters.AND`
   * is then always set to it.
   */
  method BuildFilters(query: string, location: string, minPrice: real, maxPrice: real, rating: real)
    returns (and: seq<Condition>)
    ensures and == ConditionsOf(query, location, minPrice, maxPrice, rating)
    ensures and != []
  {
    var conditions: seq<Condition> := [];
    if query != "" {
      conditions := conditions + [TextMatch(query)];
    }
    if location != "" {
      conditions := conditions + [LocationMatch(location)];
    }
    conditions := conditions + [PriceRange(minPrice, maxPrice)];
    if rating > 0.0 {
      conditions := conditions + [MinRating(rating)];
    }
    and := conditions;
  }

  /**
   * Each optional condition is present exactly when its parameter is set, the price
   * range always is, and the order is text, location, price, rating.
   */
  lemma ConditionsShape(query: string, location: string, minPrice: real, maxPrice: real, rating: real)
    ensures var and := ConditionsOf(query, location, minPrice, maxPrice, rating);
      (exists i :: 0 <= i < |and| && and[i].TextMatch?) <==> query != ""
    ensures var and := ConditionsOf(query, location, minPrice, maxPrice, rating);
      (exists i :: 0 <= i < |and| && and[i].LocationMatch?) <==> location != ""
    ensures var and := ConditionsOf(query, location, minPrice, maxPrice, rating);
      (exists i :: 0 <= i < |and| && and[i].MinRating?) <==> rating > 0.0
    ensures PriceRange(minPrice, maxPrice) in ConditionsOf(query, location, minPrice, maxPrice, rating)
    ensures 1 <= |ConditionsOf(query, location, minPrice, maxPrice, rating)| <= 4
    ensures var and := ConditionsOf(query, location, minPrice, maxPrice, rating);
      forall i, j :: 0 <= i < j < |and| ==> Order(and[i]) < Order(and[j])
  {
    var and := ConditionsOf(query, location, minPrice, maxPrice, rating);
    if query != "" { assert and[0].TextMatch?; }
    if location != "" {
      var k := if query != "" then 1 else 0;
      assert and[k].LocationMatch?;
    }
    if rating > 0.0 { assert and[|and| - 1].MinRating?; }
  }

  /** Position of a condition kind in the push order. */
  function Order(c: Condition): nat
  {
    match c
    case TextMatch(_) => 0
    case LocationMatch(_) => 1
    case PriceRange(_, _) => 2
    case MinRating(_) => 3
  }

  /** The fields of a service row the query looks at; None is a null column. */
  datatype Service = Service(
    serviceType: string,
    name: string,
    description: Option<string>,
    location: Option<string>,
    price: real,
    rating: Option<real>)

  /** Case-insensitive containment (`contains` with `mode: "insensitive"`); a null column never matches. */
  predicate ContainsIgnoringCase(field: Option<string>, needle: string)
  {
    field.Some? && Contains(ToLower(field.value), ToLower(needle))
  }

  predicate Satisfies(s: Service, c: Condition)
  {
    match c
    case TextMatch(q) =>
      ContainsIgnoringCase(Some(s.serviceType), q) || ContainsIgnoringCase(Some(s.name), q)
      || ContainsIgnoringCase(s.description, q)
    case LocationMatch(loc) => ContainsIgnoringCase(s.location, loc)
    case PriceRange(lo, hi) => lo <= s.price <= hi
    case MinRating(r) => s.rating.Some? && s.rating.value >= r
  }

  /** A service is returned when it satisfies every condition in `filters.AND`. */
  predicate Selected(s: Service, and: seq<Condition>)
  {
    forall i :: 0 <= i < |and| ==> Satisfies(s, and[i])
  }

  /**
   * What the filter means: an empty query or location matches every service, the
   * price must lie within the bounds, and a positive rating is a lower bound.
   */
  lemma FilterMeaning(query: string, location: string, minPrice: real, maxPrice: real, rating: real, s: Service)
    ensures Selected(s, ConditionsOf(query, location, minPrice, maxPrice, rating)) <==>
      (query == "" || ContainsIgnoringCase(Some(s.serviceType), query) || ContainsIgnoringCase(Some(s.name), query)
                   || ContainsIgnoringCase(s.description, query))
      && (location == "" || ContainsIgnoringCase(s.location, location))
      && minPrice <= s.price <= maxPrice
      && (rating <= 0.0 || (s.rating.Some? && s.rating.value >= rating))
  {
    var t := if query != "" then [TextMatch(query)] else [];
    var l := if location != "" then [LocationMatch(location)] else [];
    var p := [PriceRange(minPrice, maxPrice)];
    var r := if rating > 0.0 then [MinRating(rating)] else [];
    SelectedAppend(s, t, l);
    SelectedAppend(s, t + l, p);
    SelectedAppend(s, t + l + p, r);
    assert Selected(s, p) <==> Satisfies(s, p[0]);
    assert query != "" ==> (Selected(s, t) <==> Satisfies(s, t[0]));
    assert location != "" ==> (Selected(s, l) <==> Satisfies(s, l[0]));
    assert rating > 0.0 ==> (Selected(s, r) <==> Satisfies(s, r[0]));
  }

  lemma SelectedAppend(s: Service, a: seq<Condition>, b: seq<Condition>)
    ensures Selected(s, a + b) <==> Selected(s, a) && Selected(s, b)
  {
    if Selected(s, a) && Selected(s, b) {
      forall i | 0 <= i < |a + b| ensures Satisfies(s, (a + b)[i]) {
        if i >= |a| { assert (a + b)[i] == b[i - |a|]; }
      }
    }
    if Selected(s, a + b) {
      forall i | 0 <= i < |a| ensures Satisfies(s, a[i]) {
        assert (a + b)[i] == a[i];
      }
      forall i | 0 <= i < |b| ensures Satisfies(s, b[i]) {
        assert (a + b)[|a| + i] == b[i];
      }
    }
  }
}
