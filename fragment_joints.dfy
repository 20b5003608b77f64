/** What the query text holds where two fragments meet. The builder appends
    each fragment right after the previous one, so the last characters of a
    fragment run into the first characters of the next. With rating filtering
    this writes `GROUP BY properties.idHAVING ...`, one identifier where two
    words were meant; with a space between fragments every fragment stands
    apart and the placeholders are still `$1` to `$n`. */
module FragmentJoints {
  import opened SqlPlaceholders
  import opened PropertySearch
  import opened SearchProperties

  /** `w` occurs in `s` as a contiguous piece. */
  predicate Occurs(w: string, s: string) {
    exists i :: 0 <= i <= |s| && w <= s[i..]
  }

  lemma OccursBefore(w: string, a: string, b: string)
    requires Occurs(w, a)
    ensures Occurs(w, a + b)
  {
    var i :| 0 <= i <= |a| && w <= a[i..];
    assert (a + b)[i..] == a[i..] + b;
  }

  lemma OccursAfter(w: string, a: string, b: string)
    requires Occurs(w, b)
    ensures Occurs(w, a + b)
  {
    var i :| 0 <= i <= |b| && w <= b[i..];
    assert (a + b)[|a| + i..] == b[i..];
  }

  /** Two neighbouring fragments appear in the joined text with exactly
      `joint` between them. */
  lemma {:induction false} JoinAdjacent(ts: seq<string>, k: nat, joint: string)
    requires k + 1 < |ts|
    ensures Occurs(ts[k] + joint + ts[k + 1], Join(ts, joint))
    decreases |ts|
  {
    var init := ts[..|ts| - 1];
    var w := ts[k] + joint + ts[k + 1];
    assert Join(ts, joint) == Join(init, joint) + (joint + ts[|ts| - 1]);
    if k + 1 < |init| {
      JoinAdjacent(init, k, joint);
      assert init[k] == ts[k] && init[k + 1] == ts[k + 1];
      OccursBefore(w, Join(init, joint), joint + ts[|ts| - 1]);
    } else {
      var before := Join(init[..k], joint);
      assert Join(init, joint) == before + (joint + ts[k]);
      var at := |before| + |joint|;
      assert Join(ts, joint)[at..] == w;
    }
  }

  /** The same for neighbouring clauses of a rendered query. */
  lemma RenderAdjacent(cs: seq<Clause>, k: nat, joint: string)
    requires k + 1 < |cs|
    ensures Occurs(ClauseText(cs[k]) + joint + ClauseText(cs[k + 1]), Render(cs, joint))
  {
    JoinAdjacent(Texts(cs), k, joint);
    OccursAfter(ClauseText(cs[k]) + joint + ClauseText(cs[k + 1]), Prefix, Join(Texts(cs), joint));
  }

  /** With a minimum rating, the HAVING fragment directly follows GROUP BY. */
  lemma RatingFollowsGrouping(o: SearchOptions)
    requires HasRating(o)
    ensures var k := |Filters(o)|;
      && k + 1 < |SearchClauses(o)|
      && SearchClauses(o)[k] == GroupById
      && SearchClauses(o)[k + 1] == RatingAtLeast(ParamCount(o) - 1)
  {
    var f := Filters(o);
    assert SearchClauses(o) == f + [GroupById, RatingAtLeast(ParamCount(o) - 1), OrderLimit(ParamCount(o))];
  }

  /** A piece of a piece of `t` is a piece of `t`. */
  lemma OccursWithin(w: string, s: string, t: string, i: nat, j: nat)
    requires Occurs(s, t)
    requires i <= j <= |s| && w == s[i..j]
    ensures Occurs(w, t)
  {
    var at :| 0 <= at <= |t| && s <= t[at..];
    assert t[at + i..][..j - i] == w;
  }

  /** Where two fragments `a + b` and `c + r` meet with `joint` between them,
      `b + joint + c` is a piece of the text. */
  lemma OccursAcross(a: string, b: string, joint: string, c: string, r: string, t: string)
    requires Occurs(a + b + joint + (c + r), t)
    ensures Occurs(b + joint + c, t)
  {
    var m := b + joint + c;
    var s := a + b + joint + (c + r);
    assert s == a + m + r;
    assert (a + m + r)[|a|..|a| + |m|] == m;
    OccursWithin(m, s, t, |a|, |a| + |m|);
  }

  /** Where clause `k` ends in `b` and clause `k + 1` starts with `c`, the
      rendered text holds `b`, `joint` and `c` in a row. */
  lemma MeetAt(cs: seq<Clause>, k: nat, joint: string, a: string, b: string, c: string, r: string)
    requires k + 1 < |cs|
    requires ClauseText(cs[k]) == a + b && ClauseText(cs[k + 1]) == c + r
    ensures Occurs(b + joint + c, Render(cs, joint))
  {
    RenderAdjacent(cs, k, joint);
    OccursAcross(a, b, joint, c, r, Render(cs, joint));
  }

  /** GROUP BY's column meets HAVING with `joint` between them. */
  lemma GroupingMeetsHaving(o: SearchOptions, joint: string)
    requires HasRating(o)
    ensures Occurs("properties.id" + joint + "HAVING avg(property_reviews.rating) >= ",
                   Render(SearchClauses(o), joint))
  {
    RatingFollowsGrouping(o);
    MeetAt(SearchClauses(o), |Filters(o)|, joint, "GROUP BY ", "properties.id",
      "HAVING avg(property_reviews.rating) >= ", Ref(ParamCount(o) - 1));
  }

  /** As written: with a minimum rating the grouping column runs into the
      keyword HAVING, giving the single identifier `properties.idHAVING`. */
  lemma HavingFusesWithGroupBy(o: SearchOptions)
    requires HasRating(o)
    ensures Occurs("properties.id" + AsWritten + "HAVING avg(property_reviews.rating) >= ",
                   Render(SearchClauses(o), AsWritten))
  {
    GroupingMeetsHaving(o, AsWritten);
  }

  /** With a space between fragments, the grouping column and HAVING stand
      apart. */
  lemma SpacedHavingStandsApart(o: SearchOptions)
    requires HasRating(o)
    ensures Occurs("properties.id" + Spaced + "HAVING avg(property_reviews.rating) >= ",
                   Render(SearchClauses(o), Spaced))
  {
    GroupingMeetsHaving(o, Spaced);
  }

  lemma CityThenOwner(o: SearchOptions)
    requires HasCity(o) && HasOwner(o)
    ensures 2 < |SearchClauses(o)|
    ensures SearchClauses(o)[0] == Filter(Where, CityLike(1))
    ensures SearchClauses(o)[1] == Filter(And, OwnerIs(2))
  {
    var rest := PriceFilter(o) + [GroupById] + RatingFilter(o) + [OrderLimit(ParamCount(o))];
    assert SearchClauses(o) == [Filter(Where, CityLike(1)), Filter(And, OwnerIs(2))] + rest;
  }

  /** As written: a placeholder's digits run straight into the next keyword,
      `$1AND`, which PostgreSQL 15 and later reject as trailing junk after a
      parameter. */
  lemma PlaceholderRunsIntoNextFragment(o: SearchOptions)
    requires HasCity(o) && HasOwner(o)
    ensures Occurs("$1" + AsWritten + "AND owner_id = ", Render(SearchClauses(o), AsWritten))
  {
    CityThenOwner(o);
    MeetAt(SearchClauses(o), 0, AsWritten, "WHERE city LIKE ", Ref(1), "AND owner_id = ", Ref(2));
    FirstRefs();
  }

  /** With a space between fragments, every two neighbouring fragments are
      separated by it, so no keyword, identifier or placeholder is extended
      by the next fragment. */
  lemma SpacedFragmentsStandApart(o: SearchOptions, k: nat)
    requires k + 1 < |SearchClauses(o)|
    ensures var cs := SearchClauses(o);
      Occurs(ClauseText(cs[k]) + " " + ClauseText(cs[k + 1]), Render(cs, Spaced))
  {
    RenderAdjacent(SearchClauses(o), k, Spaced);
  }
}
