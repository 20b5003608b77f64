/** The property-search query builder of the LightBnB data-access layer
    (`getAllProperties`): from a search's options and a result limit it builds a
    parameterised SQL string and the positional parameter list that goes with
    it. Running the query against PostgreSQL is not part of this model. */
module PropertySearch {
  import opened SqlPlaceholders

  const DefaultLimit: int := 10

  /** The options record of a search. JavaScript truthiness decides which
      filters apply, so a field that is missing, empty or zero is written here
      as `""`, `0` or `0.0`: the builder treats all of those alike. */
  datatype SearchOptions = SearchOptions(
    city: string,
    ownerId: int,
    minimumPricePerNight: int,
    maximumPricePerNight: int,
    minimumRating: real)

  /** A search with every option missing. */
  const NoOptions := SearchOptions("", 0, 0, 0, 0.0)

  predicate HasCity(o: SearchOptions) { o.city != "" }
  predicate HasOwner(o: SearchOptions) { o.ownerId != 0 }
  /** The price filter needs both bounds; a lone bound is ignored. */
  predicate HasPriceRange(o: SearchOptions) {
    o.minimumPricePerNight != 0 && o.maximumPricePerNight != 0
  }
  predicate HasRating(o: SearchOptions) { o.minimumRating != 0.0 }

  /** A value bound to a placeholder. */
  datatype Param = Text(text: string) | Number(value: int) | Rating(bound: real)

  // ---------------------------------------------------------------------------
  // The query as a list of clauses, and its text

  datatype Keyword = Where | And

  /** A condition on a property row, with the placeholders it refers to. */
  datatype Condition =
    | CityLike(at: nat)
    | OwnerIs(at: nat)
    | PriceBetween(low: nat, high: nat)

  /** The fragments appended after the fixed start of the query. */
  datatype Clause =
    | Filter(keyword: Keyword, condition: Condition)
    | GroupById
    | RatingAtLeast(at: nat)
    | OrderLimit(at: nat)

  /** Everything before the first clause: the select list and the join. */
  const Prefix: string :=
    "\n  SELECT properties.*," + " avg(property_reviews.rating)" + " as average_rating"
    + "\n  FROM properties"
    + "\n  JOIN property_reviews" + " ON properties.id = property_id"
    + "\n "

  /** The text of one fragment, exactly as the builder writes it; `Ref(n)` is
      the placeholder `$n`. */
  function ClauseText(c: Clause): string {
    match c
    case Filter(Where, CityLike(at)) => "WHERE city LIKE " + Ref(at)
    case Filter(And, CityLike(at)) => "AND city LIKE " + Ref(at)
    case Filter(Where, OwnerIs(at)) => "WHERE owner_id = " + Ref(at)
    case Filter(And, OwnerIs(at)) => "AND owner_id = " + Ref(at)
    case Filter(Where, PriceBetween(low, high)) =>
      "WHERE cost_per_night BETWEEN " + Ref(low) + (" AND " + Ref(high))
    case Filter(And, PriceBetween(low, high)) =>
      "AND cost_per_night BETWEEN " + Ref(low) + (" AND " + Ref(high))
    case GroupById => "GROUP BY " + "properties.id"
    case RatingAtLeast(at) => "HAVING avg(property_reviews.rating) >= " + Ref(at)
    case OrderLimit(at) => "\n  ORDER BY cost_per_night\n  LIMIT " + Ref(at)
  }

  /** What `getAllProperties` puts between two fragments: nothing. */
  const AsWritten: string := ""
  /** A single space between fragments, the separation the query needs. */
  const Spaced: string := " "

  /** A text that may stand between two fragments without creating or
      changing a placeholder. */
  predicate Separator(joint: string) {
    '$' !in joint && (joint == [] || !IsDigit(joint[0]))
  }

  // Scanning a clause's text gives back the clause's placeholders.

  lemma ScanCityText(k: Keyword, at: nat)
    ensures Scan(ClauseText(Filter(k, CityLike(at)))) == [at]
  {
    if k == Where {
      ScanLiteralRef("WHERE city LIKE ", at);
    } else {
      ScanLiteralRef("AND city LIKE ", at);
    }
  }

  lemma ScanOwnerText(k: Keyword, at: nat)
    ensures Scan(ClauseText(Filter(k, OwnerIs(at)))) == [at]
  {
    if k == Where {
      ScanLiteralRef("WHERE owner_id = ", at);
    } else {
      ScanLiteralRef("AND owner_id = ", at);
    }
  }

  lemma ScanBetween(lead: string, low: nat, high: nat)
    requires '$' !in lead
    ensures Scan(lead + Ref(low) + (" AND " + Ref(high))) == [low, high]
  {
    ScanAppend(lead + Ref(low), " AND " + Ref(high));
    ScanLiteralRef(lead, low);
    ScanLiteralRef(" AND ", high);
  }

  lemma ScanPriceText(k: Keyword, low: nat, high: nat)
    ensures Scan(ClauseText(Filter(k, PriceBetween(low, high)))) == [low, high]
  {
    if k == Where {
      ScanBetween("WHERE cost_per_night BETWEEN ", low, high);
    } else {
      ScanBetween("AND cost_per_night BETWEEN ", low, high);
    }
  }

  lemma ScanRatingText(at: nat)
    ensures Scan(ClauseText(RatingAtLeast(at))) == [at]
  {
    ScanLiteralRef("HAVING avg(property_reviews.rating) >= ", at);
  }

  lemma ScanLimitText(at: nat)
    ensures Scan(ClauseText(OrderLimit(at))) == [at]
  {
    ScanLiteralRef("\n  ORDER BY cost_per_night\n  LIMIT ", at);
  }

  /** The placeholders of a clause's text are the clause's placeholders, and
      the text starts with a character that cannot extend a placeholder. */
  lemma ScanClause(c: Clause)
    ensures Scan(ClauseText(c)) == Refs(c)
    ensures ClauseText(c) != [] && !IsDigit(ClauseText(c)[0])
  {
    match c
    case Filter(k, CityLike(at)) => ScanCityText(k, at);
    case Filter(k, OwnerIs(at)) => ScanOwnerText(k, at);
    case Filter(k, PriceBetween(low, high)) => ScanPriceText(k, low, high);
    case GroupById => ScanPlain("GROUP BY " + "properties.id");
    case RatingAtLeast(at) => ScanRatingText(at);
    case OrderLimit(at) => ScanLimitText(at);
  }

  /** The fixed start of the query holds no placeholder. */
  lemma SelectHasNoPlaceholder()
    ensures '$' !in "\n  SELECT properties.*," && '$' !in " avg(property_reviews.rating)"
    ensures '$' !in " as average_rating"
  {
  }

  lemma FromHasNoPlaceholder()
    ensures '$' !in "\n  FROM properties" && '$' !in "\n  JOIN property_reviews"
    ensures '$' !in " ON properties.id = property_id" && '$' !in "\n "
  {
  }

  lemma ScanPrefix()
    ensures Scan(Prefix) == []
  {
    SelectHasNoPlaceholder();
    FromHasNoPlaceholder();
    ScanPlain(Prefix);
  }

  /** Appending a clause whose placeholders continue the numbering of the
      text so far keeps the text's placeholders numbered from 1. */
  lemma ScanJoined(joint: string, c: Clause)
    requires Separator(joint)
    ensures Scan(joint + ClauseText(c)) == Refs(c)
    ensures joint + ClauseText(c) != [] && !IsDigit((joint + ClauseText(c))[0])
  {
    ScanClause(c);
    ScanAppend(joint, ClauseText(c));
    ScanPlain(joint);
  }

  lemma ScanExtend(q: string, n: nat, c: Clause, m: nat, joint: string)
    requires Separator(joint)
    requires Scan(q) == OneTo(n)
    requires OneTo(n) + Refs(c) == OneTo(m)
    ensures Scan(q + (joint + ClauseText(c))) == OneTo(m)
  {
    ScanJoined(joint, c);
    ScanAppend(q, joint + ClauseText(c));
  }

  /** The text of each clause, in order. */
  function Texts(cs: seq<Clause>): seq<string> {
    seq(|cs|, i requires 0 <= i < |cs| => ClauseText(cs[i]))
  }

  /** Fragments appended one after the other, each preceded by `joint`. */
  function Join(ts: seq<string>, joint: string): string {
    if ts == [] then "" else Join(ts[..|ts| - 1], joint) + (joint + ts[|ts| - 1])
  }

  lemma TextsAppend(a: seq<Clause>, b: seq<Clause>)
    ensures Texts(a + b) == Texts(a) + Texts(b)
  {
  }

  lemma TextsSnoc(cs: seq<Clause>, c: Clause)
    ensures Texts(cs + [c]) == Texts(cs) + [ClauseText(c)]
  {
    TextsAppend(cs, [c]);
  }

  lemma JoinSnoc(ts: seq<string>, t: string, joint: string)
    ensures Join(ts + [t], joint) == Join(ts, joint) + (joint + t)
  {
    assert (ts + [t])[..|ts|] == ts;
  }

  /** The whole query text for a list of clauses. */
  function Render(cs: seq<Clause>, joint: string): string {
    Prefix + Join(Texts(cs), joint)
  }

  /** The placeholders a clause refers to, in text order. */
  function Refs(c: Clause): seq<nat> {
    match c
    case Filter(_, CityLike(at)) => [at]
    case Filter(_, OwnerIs(at)) => [at]
    case Filter(_, PriceBetween(low, high)) => [low, high]
    case GroupById => []
    case RatingAtLeast(at) => [at]
    case OrderLimit(at) => [at]
  }

  /** The position of a clause in the fixed clause order. */
  function Rank(c: Clause): nat {
    match c
    case Filter(_, CityLike(_)) => 0
    case Filter(_, OwnerIs(_)) => 1
    case Filter(_, PriceBetween(_, _)) => 2
    case GroupById => 3
    case RatingAtLeast(_) => 4
    case OrderLimit(_) => 5
  }

  // ---------------------------------------------------------------------------
  // What a search emits: a reference definition that decides the keyword of a
  // filter by whether an earlier filter was emitted, and numbers placeholders
  // by counting the values before them.

  function Count(b: bool): nat { if b then 1 else 0 }

  /** The keyword that introduces a filter. */
  function Intro(earlierFilter: bool): Keyword {
    if earlierFilter then And else Where
  }

  // One part of the clause list and of the parameter list per option.

  function CityFilter(o: SearchOptions): seq<Clause> {
    if HasCity(o) then [Filter(Where, CityLike(1))] else []
  }

  function OwnerFilter(o: SearchOptions): seq<Clause> {
    var before := Count(HasCity(o));
    if HasOwner(o) then [Filter(Intro(HasCity(o)), OwnerIs(before + 1))] else []
  }

  function PriceFilter(o: SearchOptions): seq<Clause> {
    var before := Count(HasCity(o)) + Count(HasOwner(o));
    if HasPriceRange(o)
    then [Filter(Intro(HasCity(o) || HasOwner(o)), PriceBetween(before + 1, before + 2))]
    else []
  }

  function RatingFilter(o: SearchOptions): seq<Clause> {
    var before := Count(HasCity(o)) + Count(HasOwner(o)) + 2 * Count(HasPriceRange(o));
    if HasRating(o) then [RatingAtLeast(before + 1)] else []
  }

  /** How many values a search binds, the limit included. */
  function ParamCount(o: SearchOptions): nat {
    Count(HasCity(o)) + Count(HasOwner(o)) + 2 * Count(HasPriceRange(o)) + Count(HasRating(o)) + 1
  }

  /** The clauses a search emits, in order. */
  function SearchClauses(o: SearchOptions): seq<Clause> {
    CityFilter(o) + OwnerFilter(o) + PriceFilter(o) + [GroupById] + RatingFilter(o) + [OrderLimit(ParamCount(o))]
  }

  /** The LIKE pattern for a city: `%` on both sides matches the city name
      anywhere in the column. */
  function LikePattern(city: string): string {
    "%" + city + "%"
  }

  lemma LikePatternWraps(city: string)
    ensures var p := LikePattern(city);
      |p| == |city| + 2 && p[0] == '%' && p[|p| - 1] == '%' && p[1..|p| - 1] == city
  {
  }

  function CityParams(o: SearchOptions): seq<Param> {
    if HasCity(o) then [Text(LikePattern(o.city))] else []
  }

  function OwnerParams(o: SearchOptions): seq<Param> {
    if HasOwner(o) then [Number(o.ownerId)] else []
  }

  function PriceParams(o: SearchOptions): seq<Param> {
    if HasPriceRange(o)
    then [Number(o.minimumPricePerNight * 100), Number(o.maximumPricePerNight * 100)]
    else []
  }

  function RatingParams(o: SearchOptions): seq<Param> {
    if HasRating(o) then [Rating(o.minimumRating)] else []
  }

  /** The parameter list a search binds: one value per present filter (two
      for the price range), the rating bound, and always the limit last. */
  function SearchParams(o: SearchOptions, limit: int): (ps: seq<Param>)
    ensures |ps| == 1 + Count(HasCity(o)) + Count(HasOwner(o)) + 2 * Count(HasPriceRange(o)) + Count(HasRating(o))
    ensures ps[|ps| - 1] == Number(limit)
  {
    CityParams(o) + OwnerParams(o) + PriceParams(o) + RatingParams(o) + [Number(limit)]
  }

  /** The values a clause is about, transformed as the builder binds them. */
  function Values(c: Clause, o: SearchOptions, limit: int): seq<Param> {
    match c
    case Filter(_, CityLike(_)) => [Text(LikePattern(o.city))]
    case Filter(_, OwnerIs(_)) => [Number(o.ownerId)]
    case Filter(_, PriceBetween(_, _)) =>
      [Number(o.minimumPricePerNight * 100), Number(o.maximumPricePerNight * 100)]
    case GroupById => []
    case RatingAtLeast(_) => [Rating(o.minimumRating)]
    case OrderLimit(_) => [Number(limit)]
  }

  // ---------------------------------------------------------------------------
  // The builder

  /** Appending the text of one more clause renders the longer clause list. */
  lemma Extend(q: string, cs: seq<Clause>, c: Clause, piece: string, joint: string)
    requires q == Render(cs, joint)
    requires piece == ClauseText(c)
    ensures q + (joint + piece) == Render(cs + [c], joint)
  {
    TextsSnoc(cs, c);
    JoinSnoc(Texts(cs), piece, joint);
  }

  /** The builder's length test picks the keyword the reference definition
      picks from whether an earlier filter was emitted. */
  lemma OwnerStep(o: SearchOptions, n: nat)
    requires HasOwner(o) && n == Count(HasCity(o)) + 1
    ensures OwnerFilter(o) == [Filter(if n == 1 then Where else And, OwnerIs(n))]
  {
  }

  lemma PriceStep(o: SearchOptions, n: nat)
    requires HasPriceRange(o) && n == Count(HasCity(o)) + Count(HasOwner(o)) + 2
    ensures PriceFilter(o) == [Filter(if n == 2 then Where else And, PriceBetween(n - 1, n))]
  {
  }

  lemma RatingStep(o: SearchOptions, n: nat)
    requires HasRating(o) && n == Count(HasCity(o)) + Count(HasOwner(o)) + 2 * Count(HasPriceRange(o)) + 1
    ensures RatingFilter(o) == [RatingAtLeast(n)]
  {
  }

  /** Appending one more clause to the text keeps it rendering the clause
      list and keeps its placeholders numbered from 1. */
  lemma Append(q: string, cs: seq<Clause>, n: nat, c: Clause, m: nat, joint: string)
    requires Separator(joint)
    requires q == Render(cs, joint) && Scan(q) == OneTo(n)
    requires OneTo(n) + Refs(c) == OneTo(m)
    ensures q + (joint + ClauseText(c)) == Render(cs + [c], joint)
    ensures Scan(q + (joint + ClauseText(c))) == OneTo(m)
  {
    Extend(q, cs, c, ClauseText(c), joint);
    ScanExtend(q, n, c, m, joint);
  }

  lemma OneToPair(n: nat)
    ensures OneTo(n) + [n + 1, n + 2] == OneTo(n + 2)
  {
  }

  /** Appending the price filter after the city and owner filters. */
  lemma PriceAppended(o: SearchOptions, q: string, n: nat, c: Clause, joint: string)
    requires Separator(joint) && HasPriceRange(o)
    requires q == Render(CityFilter(o) + OwnerFilter(o), joint)
    requires n == Count(HasCity(o)) + Count(HasOwner(o))
    requires Scan(q) == OneTo(n)
    requires c == Filter(if n == 0 then Where else And, PriceBetween(n + 1, n + 2))
    ensures q + (joint + ClauseText(c)) == Render(CityFilter(o) + OwnerFilter(o) + PriceFilter(o), joint)
    ensures Scan(q + (joint + ClauseText(c))) == OneTo(n + 2)
  {
    PriceStep(o, n + 2);
    OneToPair(n);
    Append(q, CityFilter(o) + OwnerFilter(o), n, c, n + 2, joint);
  }

  // Each option's block of the builder. A block receives the text and the
  // values built so far and appends its filter when the option is present.

  method FilterByCity(options: SearchOptions, queryString: string, queryParams: seq<Param>, joint: string)
    returns (q: string, ps: seq<Param>)
    requires Separator(joint)
    requires queryString == Prefix && queryParams == []
    ensures q == Render(CityFilter(options), joint)
    ensures ps == CityParams(options)
    ensures Scan(q) == OneTo(|ps|)
  {
    q, ps := queryString, queryParams;
    assert Texts([]) == [];
    ScanPrefix();
    if options.city != "" {
      ps := ps + [Text(LikePattern(options.city))];
      var c := Filter(Where, CityLike(|ps|));
      var piece := ClauseText(c);
      Append(q, [], 0, c, 1, joint);
      q := q + (joint + piece);
    }
  }

  method FilterByOwner(options: SearchOptions, queryString: string, queryParams: seq<Param>, joint: string)
    returns (q: string, ps: seq<Param>)
    requires Separator(joint)
    requires queryString == Render(CityFilter(options), joint)
    requires queryParams == CityParams(options)
    requires Scan(queryString) == OneTo(|queryParams|)
    ensures q == Render(CityFilter(options) + OwnerFilter(options), joint)
    ensures ps == queryParams + OwnerParams(options)
    ensures Scan(q) == OneTo(|ps|)
  {
    q, ps := queryString, queryParams;
    if options.ownerId != 0 {
      ps := ps + [Number(options.ownerId)];
      var c := Filter(if |ps| == 1 then Where else And, OwnerIs(|ps|));
      OwnerStep(options, |ps|);
      var piece := ClauseText(c);
      Append(q, CityFilter(options), |ps| - 1, c, |ps|, joint);
      q := q + (joint + piece);
    }
  }

  method FilterByPrice(options: SearchOptions, queryString: string, queryParams: seq<Param>, joint: string)
    returns (q: string, ps: seq<Param>)
    requires Separator(joint)
    requires queryString == Render(CityFilter(options) + OwnerFilter(options), joint)
    requires queryParams == CityParams(options) + OwnerParams(options)
    requires Scan(queryString) == OneTo(|queryParams|)
    ensures q == Render(CityFilter(options) + OwnerFilter(options) + PriceFilter(options), joint)
    ensures ps == queryParams + PriceParams(options)
    ensures Scan(q) == OneTo(|ps|)
  {
    q, ps := queryString, queryParams;
    if options.minimumPricePerNight != 0 && options.maximumPricePerNight != 0 {
      ps := ps + [Number(options.minimumPricePerNight * 100), Number(options.maximumPricePerNight * 100)];
      var c := Filter(if |ps| == 2 then Where else And, PriceBetween(|ps| - 1, |ps|));
      var piece := ClauseText(c);
      PriceAppended(options, q, |queryParams|, c, joint);
      q := q + (joint + piece);
    } else {
      assert CityFilter(options) + OwnerFilter(options) + PriceFilter(options)
        == CityFilter(options) + OwnerFilter(options);
    }
  }

  method FilterByRating(options: SearchOptions, queryString: string, queryParams: seq<Param>, joint: string)
    returns (q: string, ps: seq<Param>)
    requires Separator(joint)
    requires queryString
      == Render(CityFilter(options) + OwnerFilter(options) + PriceFilter(options) + [GroupById], joint)
    requires queryParams == CityParams(options) + OwnerParams(options) + PriceParams(options)
    requires Scan(queryString) == OneTo(|queryParams|)
    ensures q == Render(CityFilter(options) + OwnerFilter(options) + PriceFilter(options) + [GroupById]
      + RatingFilter(options), joint)
    ensures ps == queryParams + RatingParams(options)
    ensures Scan(q) == OneTo(|ps|)
  {
    q, ps := queryString, queryParams;
    if options.minimumRating != 0.0 {
      ps := ps + [Rating(options.minimumRating)];
      var c := RatingAtLeast(|ps|);
      RatingStep(options, |ps|);
      var piece := ClauseText(c);
      Append(q, CityFilter(options) + OwnerFilter(options) + PriceFilter(options) + [GroupById], |ps| - 1, c, |ps|, joint);
      q := q + (joint + piece);
    } else {
      var before := CityFilter(options) + OwnerFilter(options) + PriceFilter(options) + [GroupById];
      assert before + RatingFilter(options) == before;
    }
  }

  /** Appends the grouping every search has. */
  method GroupByProperty(options: SearchOptions, queryString: string, queryParams: seq<Param>, joint: string)
    returns (q: string)
    requires Separator(joint)
    requires queryString == Render(CityFilter(options) + OwnerFilter(options) + PriceFilter(options), joint)
    requires Scan(queryString) == OneTo(|queryParams|)
    ensures q == Render(CityFilter(options) + OwnerFilter(options) + PriceFilter(options) + [GroupById], joint)
    ensures Scan(q) == OneTo(|queryParams|)
  {
    var grouping := ClauseText(GroupById);
    Append(queryString, CityFilter(options) + OwnerFilter(options) + PriceFilter(options), |queryParams|,
      GroupById, |queryParams|, joint);
    q := queryString + (joint + grouping);
  }

  /** Binds the limit as the last value and appends the ordering and the
      limit, at the placeholder of the last value. */
  method OrderAndLimit(options: SearchOptions, limit: int, queryString: string, queryParams: seq<Param>, joint: string)
    returns (q: string, ps: seq<Param>)
    requires Separator(joint)
    requires queryString == Render(CityFilter(options) + OwnerFilter(options) + PriceFilter(options) + [GroupById]
      + RatingFilter(options), joint)
    requires queryParams == CityParams(options) + OwnerParams(options) + PriceParams(options) + RatingParams(options)
    requires Scan(queryString) == OneTo(|queryParams|)
    ensures q == Render(SearchClauses(options), joint)
    ensures ps == SearchParams(options, limit)
    ensures Scan(q) == OneTo(|ps|)
  {
    ps := queryParams + [Number(limit)];
    assert |ps| == ParamCount(options);
    var tail := OrderLimit(|ps|);
    var ordering := ClauseText(tail);
    Append(queryString, CityFilter(options) + OwnerFilter(options) + PriceFilter(options) + [GroupById]
      + RatingFilter(options), |ps| - 1, tail, |ps|, joint);
    q := queryString + (joint + ordering);
  }

  /** Appends the fragments in order, `joint` before each one. */
  method BuildQuery(options: SearchOptions, limit: int, joint: string)
    returns (queryString: string, queryParams: seq<Param>)
    requires Separator(joint)
    ensures queryParams == SearchParams(options, limit)
    ensures queryString == Render(SearchClauses(options), joint)
    ensures Scan(queryString) == OneTo(|queryParams|)
  {
    queryParams := [];
    queryString := Prefix;
    queryString, queryParams := FilterByCity(options, queryString, queryParams, joint);
    queryString, queryParams := FilterByOwner(options, queryString, queryParams, joint);
    queryString, queryParams := FilterByPrice(options, queryString, queryParams, joint);
    queryString := GroupByProperty(options, queryString, queryParams, joint);
    queryString, queryParams := FilterByRating(options, queryString, queryParams, joint);
    queryString, queryParams := OrderAndLimit(options, limit, queryString, queryParams, joint);
  }

  /** Builds the query text and its parameter list, appending fragment by
      fragment with nothing in between and choosing WHERE or AND by the length
      of the parameter list. Its placeholders are `$1` to `$n` in text order,
      one per bound value. */
  method GetAllProperties(options: SearchOptions, limit: int := DefaultLimit)
    returns (queryString: string, queryParams: seq<Param>)
    ensures queryParams == SearchParams(options, limit)
    ensures queryString == Render(SearchClauses(options), AsWritten)
    ensures Scan(queryString) == OneTo(|queryParams|)
  {
    queryString, queryParams := BuildQuery(options, limit, AsWritten);
  }

  /** The same builder with a space before every fragment. */
  method GetAllPropertiesSpaced(options: SearchOptions, limit: int := DefaultLimit)
    returns (queryString: string, queryParams: seq<Param>)
    ensures queryParams == SearchParams(options, limit)
    ensures queryString == Render(SearchClauses(options), Spaced)
    ensures Scan(queryString) == OneTo(|queryParams|)
  {
    queryString, queryParams := BuildQuery(options, limit, Spaced);
  }
}
