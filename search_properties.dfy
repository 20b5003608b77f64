/** What the property-search builder promises about the query it builds:
    every placeholder selects the value of its own clause, each option's value
    is transformed as its column needs it, at most one filter is introduced by
    WHERE, the fragments come in a fixed order, a lone price bound is ignored,
    and what a search with no options builds. */
module SearchProperties {
  import opened SqlPlaceholders
  import opened PropertySearch

  // ---------------------------------------------------------------------------
  // Where each value sits in the parameter list

  lemma CityParamAt(o: SearchOptions, limit: int)
    requires HasCity(o)
    ensures SearchParams(o, limit)[0] == Text(LikePattern(o.city))
  {
  }

  lemma OwnerParamAt(o: SearchOptions, limit: int)
    requires HasOwner(o)
    ensures SearchParams(o, limit)[Count(HasCity(o))] == Number(o.ownerId)
  {
    var head := CityParams(o) + OwnerParams(o);
    assert SearchParams(o, limit) == head + (PriceParams(o) + RatingParams(o) + [Number(limit)]);
  }

  lemma PriceParamsAt(o: SearchOptions, limit: int)
    requires HasPriceRange(o)
    ensures var at := Count(HasCity(o)) + Count(HasOwner(o));
      && SearchParams(o, limit)[at] == Number(o.minimumPricePerNight * 100)
      && SearchParams(o, limit)[at + 1] == Number(o.maximumPricePerNight * 100)
  {
    var head := CityParams(o) + OwnerParams(o) + PriceParams(o);
    assert SearchParams(o, limit) == head + (RatingParams(o) + [Number(limit)]);
  }

  lemma RatingParamAt(o: SearchOptions, limit: int)
    requires HasRating(o)
    ensures var ps := SearchParams(o, limit); ps[|ps| - 2] == Rating(o.minimumRating)
  {
    var head := CityParams(o) + OwnerParams(o) + PriceParams(o);
    assert SearchParams(o, limit) == head + [Rating(o.minimumRating), Number(limit)];
  }

  /** How each option is bound: the city wrapped in `%` for LIKE, the owner
      as given, both prices multiplied by 100 (the column holds cents), the
      rating as given, and the limit last. */
  lemma BoundValues(o: SearchOptions, limit: int)
    ensures var ps := SearchParams(o, limit);
      var owner := Count(HasCity(o));
      var price := owner + Count(HasOwner(o));
      && (HasCity(o) ==> ps[0] == Text(LikePattern(o.city)))
      && (HasOwner(o) ==> ps[owner] == Number(o.ownerId))
      && (HasPriceRange(o) ==>
            (ps[price] == Number(o.minimumPricePerNight * 100)
             && ps[price + 1] == Number(o.maximumPricePerNight * 100)))
      && (HasRating(o) ==> ps[|ps| - 2] == Rating(o.minimumRating))
      && ps[|ps| - 1] == Number(limit)
  {
    if HasCity(o) { CityParamAt(o, limit); }
    if HasOwner(o) { OwnerParamAt(o, limit); }
    if HasPriceRange(o) { PriceParamsAt(o, limit); }
    if HasRating(o) { RatingParamAt(o, limit); }
  }

  // ---------------------------------------------------------------------------
  // Every placeholder selects the value of its own clause

  /** The clauses of a search and the parts they come from. */
  lemma ClauseParts(o: SearchOptions, c: Clause)
    requires c in SearchClauses(o)
    ensures || c in CityFilter(o) || c in OwnerFilter(o) || c in PriceFilter(o)
            || c == GroupById || c in RatingFilter(o) || c == OrderLimit(ParamCount(o))
  {
  }

  /** A placeholder `$k` of `c` lies between 1 and the number of values, and
      the value it selects, `ps[k - 1]`, is the value `c` is about. */
  predicate Binds(c: Clause, ps: seq<Param>, vs: seq<Param>) {
    |vs| == |Refs(c)|
    && forall j :: 0 <= j < |Refs(c)| ==> 1 <= Refs(c)[j] <= |ps| && ps[Refs(c)[j] - 1] == vs[j]
  }

  lemma BindsOne(c: Clause, ps: seq<Param>, x: Param, i: nat)
    requires Refs(c) == [i + 1] && i < |ps| && ps[i] == x
    ensures Binds(c, ps, [x])
  {
  }

  lemma BindsPair(c: Clause, ps: seq<Param>, x: Param, y: Param, i: nat)
    requires Refs(c) == [i + 1, i + 2] && i + 1 < |ps| && ps[i] == x && ps[i + 1] == y
    ensures Binds(c, ps, [x, y])
  {
  }

  lemma CityBinds(o: SearchOptions, limit: int, c: Clause)
    requires c in CityFilter(o)
    ensures Binds(c, SearchParams(o, limit), Values(c, o, limit))
  {
    CityParamAt(o, limit);
    BindsOne(c, SearchParams(o, limit), Text(LikePattern(o.city)), 0);
  }

  lemma OwnerBinds(o: SearchOptions, limit: int, c: Clause)
    requires c in OwnerFilter(o)
    ensures Binds(c, SearchParams(o, limit), Values(c, o, limit))
  {
    OwnerParamAt(o, limit);
    BindsOne(c, SearchParams(o, limit), Number(o.ownerId), Count(HasCity(o)));
  }

  lemma PriceClause(o: SearchOptions, limit: int, c: Clause)
    requires c in PriceFilter(o)
    ensures Refs(c) == [Count(HasCity(o)) + Count(HasOwner(o)) + 1, Count(HasCity(o)) + Count(HasOwner(o)) + 2]
    ensures Values(c, o, limit) == [Number(o.minimumPricePerNight * 100), Number(o.maximumPricePerNight * 100)]
  {
  }

  lemma PriceBinds(o: SearchOptions, limit: int, c: Clause)
    requires c in PriceFilter(o)
    ensures Binds(c, SearchParams(o, limit), Values(c, o, limit))
  {
    PriceClause(o, limit, c);
    PriceParamsAt(o, limit);
    BindsPair(c, SearchParams(o, limit), Number(o.minimumPricePerNight * 100),
      Number(o.maximumPricePerNight * 100), Count(HasCity(o)) + Count(HasOwner(o)));
  }

  lemma RatingBinds(o: SearchOptions, limit: int, c: Clause)
    requires c in RatingFilter(o)
    ensures Binds(c, SearchParams(o, limit), Values(c, o, limit))
  {
    var ps := SearchParams(o, limit);
    RatingParamAt(o, limit);
    BindsOne(c, ps, Rating(o.minimumRating), |ps| - 2);
  }

  lemma LimitBinds(o: SearchOptions, limit: int)
    ensures Binds(OrderLimit(ParamCount(o)), SearchParams(o, limit), Values(OrderLimit(ParamCount(o)), o, limit))
  {
    var ps := SearchParams(o, limit);
    BindsOne(OrderLimit(ParamCount(o)), ps, Number(limit), |ps| - 1);
  }

  /** Every placeholder of every emitted clause selects the value that clause
      is about. */
  lemma PlaceholderBindsItsValue(o: SearchOptions, limit: int, c: Clause)
    requires c in SearchClauses(o)
    ensures Binds(c, SearchParams(o, limit), Values(c, o, limit))
  {
    ClauseParts(o, c);
    if c in CityFilter(o) {
      CityBinds(o, limit, c);
    } else if c in OwnerFilter(o) {
      OwnerBinds(o, limit, c);
    } else if c in PriceFilter(o) {
      PriceBinds(o, limit, c);
    } else if c in RatingFilter(o) {
      RatingBinds(o, limit, c);
    } else if c == OrderLimit(ParamCount(o)) {
      LimitBinds(o, limit);
    }
  }

  // ---------------------------------------------------------------------------
  // WHERE and AND

  /** The filters a search emits: the fragments before GROUP BY. */
  function Filters(o: SearchOptions): seq<Clause> {
    CityFilter(o) + OwnerFilter(o) + PriceFilter(o)
  }

  /** Only the first filter is introduced by WHERE. */
  lemma FilterKeywords(o: SearchOptions)
    ensures |Filters(o)| == Count(HasCity(o)) + Count(HasOwner(o)) + Count(HasPriceRange(o))
    ensures forall i :: 0 <= i < |Filters(o)| ==> Filters(o)[i].Filter?
    ensures forall i :: 0 <= i < |Filters(o)| ==> (Filters(o)[i].keyword == Where <==> i == 0)
  {
  }

  /** Among the filters of `cs`, the one at the front is introduced by WHERE
      and every other one by AND. */
  predicate WhereFirst(cs: seq<Clause>) {
    forall i :: 0 <= i < |cs| && cs[i].Filter? ==> (cs[i].keyword == Where <==> i == 0)
  }

  /** Appending clauses that are not filters keeps the filters' keywords. */
  lemma WhereFirstAppend(s: seq<Clause>, t: seq<Clause>)
    requires WhereFirst(s)
    requires forall c :: c in t ==> !c.Filter?
    ensures WhereFirst(s + t)
  {
    forall i | 0 <= i < |s + t| && (s + t)[i].Filter?
      ensures (s + t)[i].keyword == Where <==> i == 0
    {
      if i < |s| {
        assert (s + t)[i] == s[i];
      }
    }
  }

  /** The query starts with a filter exactly when some filter applies. */
  lemma FirstClause(o: SearchOptions)
    ensures SearchClauses(o)[0].Filter? <==> HasCity(o) || HasOwner(o) || HasPriceRange(o)
  {
    var f := Filters(o);
    if f == [] {
      assert SearchClauses(o) == [GroupById] + RatingFilter(o) + [OrderLimit(ParamCount(o))];
    } else {
      assert SearchClauses(o)[0] == f[0];
    }
  }

  /** The first filter is introduced by WHERE and every later one by AND, so
      the query has exactly one WHERE when some filter applies and none
      otherwise. */
  lemma OneWhere(o: SearchOptions)
    ensures SearchClauses(o)[0].Filter? <==> HasCity(o) || HasOwner(o) || HasPriceRange(o)
    ensures WhereFirst(SearchClauses(o))
  {
    var f := Filters(o);
    FilterKeywords(o);
    FirstClause(o);
    WhereFirstAppend(f, [GroupById]);
    WhereFirstAppend(f + [GroupById], RatingFilter(o));
    WhereFirstAppend(f + [GroupById] + RatingFilter(o), [OrderLimit(ParamCount(o))]);
  }

  // ---------------------------------------------------------------------------
  // Clause order

  /** The clauses' ranks strictly increase from left to right. */
  predicate Ascending(cs: seq<Clause>) {
    forall i, j :: 0 <= i < j < |cs| ==> Rank(cs[i]) < Rank(cs[j])
  }

  /** A clause of rank `r` is present. */
  predicate Present(cs: seq<Clause>, r: nat) {
    exists c :: c in cs && Rank(c) == r
  }

  /** Two ascending lists, the first ranked wholly below the second, make an
      ascending list. */
  lemma AscendingAppend(a: seq<Clause>, b: seq<Clause>, bound: nat)
    requires Ascending(a) && Ascending(b)
    requires forall c :: c in a ==> Rank(c) < bound
    requires forall c :: c in b ==> Rank(c) >= bound
    ensures Ascending(a + b)
  {
    forall i, j | 0 <= i < j < |a + b|
      ensures Rank((a + b)[i]) < Rank((a + b)[j])
    {
      if j < |a| {
        assert (a + b)[i] == a[i] && (a + b)[j] == a[j];
      } else if i < |a| {
        assert (a + b)[i] in a;
        assert (a + b)[j] in b;
      } else {
        assert (a + b)[i] == b[i - |a|] && (a + b)[j] == b[j - |a|];
      }
    }
  }

  /** The ranks of the parts a search is assembled from. */
  lemma PartRanks(o: SearchOptions)
    ensures forall c :: c in CityFilter(o) ==> Rank(c) == 0
    ensures forall c :: c in OwnerFilter(o) ==> Rank(c) == 1
    ensures forall c :: c in PriceFilter(o) ==> Rank(c) == 2
    ensures forall c :: c in RatingFilter(o) ==> Rank(c) == 4
  {
  }

  /** The fragments come in the fixed order city, owner, price range,
      GROUP BY, rating, ORDER BY with LIMIT. */
  lemma ClauseOrder(o: SearchOptions)
    ensures Ascending(SearchClauses(o))
  {
    var c, w, p, r := CityFilter(o), OwnerFilter(o), PriceFilter(o), RatingFilter(o);
    PartRanks(o);
    AscendingAppend(c, w, 1);
    AscendingAppend(c + w, p, 2);
    AscendingAppend(c + w + p, [GroupById], 3);
    AscendingAppend(c + w + p + [GroupById], r, 4);
    AscendingAppend(c + w + p + [GroupById] + r, [OrderLimit(ParamCount(o))], 5);
  }

  /** A rank is present exactly when the part holding that rank's clauses is
      not empty. */
  lemma PresentExactly(cs: seq<Clause>, part: seq<Clause>, r: nat)
    requires forall c :: c in cs && Rank(c) == r ==> c in part
    requires forall c :: c in part ==> c in cs && Rank(c) == r
    ensures Present(cs, r) <==> part != []
  {
    if part != [] {
      assert part[0] in part;
    }
  }

  /** Every clause of a search lies in the part of its rank. */
  lemma ClausesByRank(o: SearchOptions)
    ensures forall c :: c in SearchClauses(o) && Rank(c) == 0 ==> c in CityFilter(o)
    ensures forall c :: c in SearchClauses(o) && Rank(c) == 1 ==> c in OwnerFilter(o)
    ensures forall c :: c in SearchClauses(o) && Rank(c) == 2 ==> c in PriceFilter(o)
    ensures forall c :: c in SearchClauses(o) && Rank(c) == 4 ==> c in RatingFilter(o)
  {
    PartRanks(o);
    forall c | c in SearchClauses(o)
      ensures || c in CityFilter(o) || c in OwnerFilter(o) || c in PriceFilter(o)
              || c == GroupById || c in RatingFilter(o) || c == OrderLimit(ParamCount(o))
    {
      ClauseParts(o, c);
    }
  }

  /** GROUP BY is always there, each filter exactly when its option is, and
      the last clause is the limit at the last placeholder. */
  lemma ClausePresence(o: SearchOptions, limit: int)
    ensures Present(SearchClauses(o), 0) <==> HasCity(o)
    ensures Present(SearchClauses(o), 1) <==> HasOwner(o)
    ensures Present(SearchClauses(o), 2) <==> HasPriceRange(o)
    ensures Present(SearchClauses(o), 3)
    ensures Present(SearchClauses(o), 4) <==> HasRating(o)
    ensures SearchClauses(o)[|SearchClauses(o)| - 1] == OrderLimit(|SearchParams(o, limit)|)
  {
    var cs := SearchClauses(o);
    PartRanks(o);
    ClausesByRank(o);
    PresentExactly(cs, CityFilter(o), 0);
    PresentExactly(cs, OwnerFilter(o), 1);
    PresentExactly(cs, PriceFilter(o), 2);
    PresentExactly(cs, RatingFilter(o), 4);
    assert GroupById in cs;
  }

  // ---------------------------------------------------------------------------
  // Option values and defaults

  /** A price range needs both bounds: with only one of them set the search
      builds the same clauses and binds the same values as with neither. */
  lemma LonePriceBoundIgnored(o: SearchOptions, limit: int)
    requires (o.minimumPricePerNight == 0) != (o.maximumPricePerNight == 0)
    ensures var neither := o.(minimumPricePerNight := 0, maximumPricePerNight := 0);
      && SearchClauses(o) == SearchClauses(neither)
      && SearchParams(o, limit) == SearchParams(neither, limit)
  {
    var neither := o.(minimumPricePerNight := 0, maximumPricePerNight := 0);
    assert PriceFilter(o) == PriceFilter(neither) && PriceParams(o) == PriceParams(neither);
    assert RatingFilter(o) == RatingFilter(neither) && ParamCount(o) == ParamCount(neither);
  }

  /** With no option set the query only groups, orders and limits, and the
      limit is the only value bound. */
  lemma EmptySearch(limit: int)
    ensures SearchClauses(NoOptions) == [GroupById, OrderLimit(1)]
    ensures SearchParams(NoOptions, limit) == [Number(limit)]
    ensures Render(SearchClauses(NoOptions), AsWritten)
      == Prefix + ("GROUP BY " + "properties.id") + ("\n  ORDER BY cost_per_night\n  LIMIT " + "$1")
  {
    var g, l := ClauseText(GroupById), ClauseText(OrderLimit(1));
    FirstRefs();
    assert SearchClauses(NoOptions) == [GroupById] + [OrderLimit(1)];
    TextsSnoc([GroupById], OrderLimit(1));
    assert Texts([GroupById]) == [] + [g];
    assert Texts(SearchClauses(NoOptions)) == [g] + [l];
    JoinSnoc([], g, AsWritten);
    JoinSnoc([g], l, AsWritten);
  }

  /** A search for city "van" with limit 5 binds `%van%` and 5 and has one
      filter, introduced by WHERE. */
  lemma CityExample()
    ensures var o := NoOptions.(city := "van");
      && SearchParams(o, 5) == [Text("%van%"), Number(5)]
      && SearchClauses(o) == [Filter(Where, CityLike(1)), GroupById, OrderLimit(2)]
  {
    assert LikePattern("van") == "%van%";
  }

  /** Owner 7 with prices 50 to 150 binds 7, 5000, 15000 and the limit, the
      owner filter introduced by WHERE and the price range by AND. */
  lemma OwnerAndPriceExample()
    ensures var o := NoOptions.(ownerId := 7, minimumPricePerNight := 50, maximumPricePerNight := 150);
      && SearchParams(o, 10) == [Number(7), Number(5000), Number(15000), Number(10)]
      && SearchClauses(o) == [Filter(Where, OwnerIs(1)), Filter(And, PriceBetween(2, 3)), GroupById, OrderLimit(4)]
  {
  }

  /** A minimum rating alone binds the rating and the limit, and HAVING
      refers to the first placeholder. */
  lemma RatingExample(rating: real, limit: int)
    requires rating != 0.0
    ensures var o := NoOptions.(minimumRating := rating);
      && SearchParams(o, limit) == [Rating(rating), Number(limit)]
      && SearchClauses(o) == [GroupById, RatingAtLeast(1), OrderLimit(2)]
  {
  }
}
