/**
 * The ranking stage of `process_and_send_results` and the place card of
 * `_format_place_card`.
 *
 * The ranking sorts the search results by the key
 * `(float(rating or 0.0), int(user_ratings_total or 0))` with
 * `reverse=True`; Python's sort is stable also when reversed, so places
 * with equal keys keep their search order. The top three are shown.
 */
module Ranking {
  import opened Wrappers
  import opened Text
  import opened GoogleMaps
  import Geospatial

  // ---------------------------------------------------------------------
  // Sort key
  // ---------------------------------------------------------------------

  /** The sort key of a place: its rating (0.0 when absent) and its rating count (0 when absent). */
  datatype RankKey = RankKey(rating: real, count: int)

  /** Tuple comparison `a > b`: higher rating first, then more ratings. */
  predicate Outranks(a: RankKey, b: RankKey) {
    a.rating > b.rating || (a.rating == b.rating && a.count > b.count)
  }

  /**
   * The key of one place, or `None` when `float()` rejects its rating and
   * the sort raises `ValueError`.
   */
  function RankKeyOf(p: Place): Option<RankKey> {
    match p.rating
    case Garbled => None
    case _ => Some(RankKey(RatingValue(p.rating), p.ratingsTotal.GetOr(0)))
  }

  /** A place together with its sort key. */
  datatype Ranked = Ranked(key: RankKey, place: Place)

  /** The keys of all places, as `list.sort` computes them before sorting; `None` if one raises. */
  function Decorate(ps: seq<Place>): (r: Option<seq<Ranked>>)
    ensures r.None? <==> exists i :: 0 <= i < |ps| && ps[i].rating.Garbled?
    ensures r.Some? ==> (|r.value| == |ps|
      && forall i :: 0 <= i < |ps| ==> r.value[i].place == ps[i] && RankKeyOf(ps[i]) == Some(r.value[i].key))
    decreases |ps|
  {
    if ps == [] then Some([])
    else match (RankKeyOf(ps[0]), Decorate(ps[1..]))
      case (Some(k), Some(rest)) =>
        var r := [Ranked(k, ps[0])] + rest;
        assert forall i :: 1 <= i < |ps| ==> r[i] == rest[i - 1] && ps[i] == ps[1..][i - 1];
        Some(r)
      case (None, _) => None
      case (_, None) =>
        var i :| 0 <= i < |ps[1..]| && ps[1..][i].rating.Garbled?;
        assert ps[i + 1].rating.Garbled?;
        None
  }

  /** The places of a ranked list, in its order. */
  function PlacesOf(rs: seq<Ranked>): (ps: seq<Place>)
    ensures |ps| == |rs| && forall i :: 0 <= i < |rs| ==> ps[i] == rs[i].place
  {
    seq(|rs|, i requires 0 <= i < |rs| => rs[i].place)
  }

  // ---------------------------------------------------------------------
  // Stable descending sort
  // ---------------------------------------------------------------------

  /** No entry is outranked by an entry after it. */
  predicate Descending(s: seq<Ranked>) {
    forall i, j :: 0 <= i < j < |s| ==> !Outranks(s[j].key, s[i].key)
  }

  /** Puts `x` after the entries that strictly outrank it and before all the others. */
  function Insert(x: Ranked, s: seq<Ranked>): seq<Ranked>
    decreases |s|
  {
    if s == [] then [x]
    else if Outranks(s[0].key, x.key) then [s[0]] + Insert(x, s[1..])
    else [x] + s
  }

  /** `list.sort(key=..., reverse=True)`: a stable sort from the highest key to the lowest. */
  function SortByRank(rs: seq<Ranked>): seq<Ranked>
    decreases |rs|
  {
    if rs == [] then [] else Insert(rs[0], SortByRank(rs[1..]))
  }

  /** The entries of `s` with key `k`, in order. */
  function WithKey(s: seq<Ranked>, k: RankKey): seq<Ranked>
    decreases |s|
  {
    if s == [] then []
    else (if s[0].key == k then [s[0]] else []) + WithKey(s[1..], k)
  }

  lemma {:induction false} InsertPermutes(x: Ranked, s: seq<Ranked>)
    ensures multiset(Insert(x, s)) == multiset(s) + multiset{x}
    decreases |s|
  {
    if s != [] && Outranks(s[0].key, x.key) {
      InsertPermutes(x, s[1..]);
      assert s == [s[0]] + s[1..];
    }
  }

  /** An entry that no entry of `s` outranks at its head can go in front of a descending `s`. */
  lemma PrependDescending(x: Ranked, s: seq<Ranked>)
    requires Descending(s) && forall y :: y in s ==> !Outranks(y.key, x.key)
    ensures Descending([x] + s)
  {
    var r := [x] + s;
    forall i, j | 0 <= i < j < |r| ensures !Outranks(r[j].key, r[i].key) {
      assert r[j] == s[j - 1];
      if i > 0 {
        assert r[i] == s[i - 1];
      }
    }
  }

  lemma DescendingTail(s: seq<Ranked>)
    requires Descending(s) && s != []
    ensures Descending(s[1..]) && forall y :: y in s[1..] ==> !Outranks(y.key, s[0].key)
  {
    var t := s[1..];
    forall i, j | 0 <= i < j < |t| ensures !Outranks(t[j].key, t[i].key) {
      assert t[i] == s[i + 1] && t[j] == s[j + 1];
    }
  }

  /** Inserting into a descending list keeps it descending. */
  lemma {:induction false} InsertDescending(x: Ranked, s: seq<Ranked>)
    requires Descending(s)
    ensures Descending(Insert(x, s))
    decreases |s|
  {
    if s != [] && Outranks(s[0].key, x.key) {
      var t := s[1..];
      DescendingTail(s);
      InsertDescending(x, t);
      InsertPermutes(x, t);
      forall y | y in Insert(x, t) ensures !Outranks(y.key, s[0].key) {
        assert y in multiset(Insert(x, t));
      }
      PrependDescending(s[0], Insert(x, t));
    } else if s != [] {
      DescendingTail(s);
      PrependDescending(x, s);
    }
  }

  lemma WithKeyCons(y: Ranked, t: seq<Ranked>, k: RankKey)
    ensures WithKey([y] + t, k) == (if y.key == k then [y] else []) + WithKey(t, k)
  {
    assert ([y] + t)[1..] == t;
  }

  /** Inserting `x` adds it to the front of its own key class and changes no other class. */
  lemma {:induction false} InsertWithKey(x: Ranked, s: seq<Ranked>, k: RankKey)
    ensures WithKey(Insert(x, s), k) == (if x.key == k then [x] else []) + WithKey(s, k)
    decreases |s|
  {
    if s == [] {
      WithKeyCons(x, [], k);
    } else if Outranks(s[0].key, x.key) {
      InsertWithKey(x, s[1..], k);
      WithKeyCons(s[0], Insert(x, s[1..]), k);
      WithKeyCons(s[0], s[1..], k);
      assert s == [s[0]] + s[1..];
    } else {
      WithKeyCons(x, s, k);
    }
  }

  /** The ranking is sorted from the highest key to the lowest. */
  lemma {:induction false} SortDescending(rs: seq<Ranked>)
    ensures Descending(SortByRank(rs))
    decreases |rs|
  {
    if rs != [] {
      SortDescending(rs[1..]);
      InsertDescending(rs[0], SortByRank(rs[1..]));
    }
  }

  /** The ranking holds exactly the ranked places, each as often as in the input. */
  lemma {:induction false} SortPermutes(rs: seq<Ranked>)
    ensures multiset(SortByRank(rs)) == multiset(rs)
    decreases |rs|
  {
    if rs != [] {
      SortPermutes(rs[1..]);
      InsertPermutes(rs[0], SortByRank(rs[1..]));
      assert rs == [rs[0]] + rs[1..];
    }
  }

  /** The sort is stable: the places sharing a key appear in their search order. */
  lemma {:induction false} SortStable(rs: seq<Ranked>, k: RankKey)
    ensures WithKey(SortByRank(rs), k) == WithKey(rs, k)
    decreases |rs|
  {
    if rs != [] {
      SortStable(rs[1..], k);
      InsertWithKey(rs[0], SortByRank(rs[1..]), k);
      WithKeyCons(rs[0], rs[1..], k);
      assert rs == [rs[0]] + rs[1..];
    }
  }

  // ---------------------------------------------------------------------
  // Top three
  // ---------------------------------------------------------------------

  /** How many places are shown. */
  const TopCount: nat := 3

  /** `all_candidates[:3]`. */
  function Top(s: seq<Ranked>): seq<Ranked> {
    if |s| <= TopCount then s else s[..TopCount]
  }

  /**
   * What the ranking step yields: the sorted list's top entries, or
   * `Raised` when one rating cannot be converted.
   */
  function RankTop(ps: seq<Place>): Outcome<seq<Ranked>> {
    match Decorate(ps)
    case None => Raised
    case Some(rs) => Returned(Top(SortByRank(rs)))
  }

  /**
   * The top entries are the first `min(3, n)` of the ranking, are in rank
   * order, and no entry left out outranks one that was kept.
   */
  lemma TopIsBest(rs: seq<Ranked>)
    ensures var s := SortByRank(rs); var t := Top(s);
      |s| == |rs| && |t| == (if |rs| < TopCount then |rs| else TopCount) && t == s[..|t|]
      && Descending(t)
      && forall i, j :: 0 <= i < |t| <= j < |s| ==> !Outranks(s[j].key, t[i].key)
  {
    var s := SortByRank(rs);
    SortDescending(rs);
    SortPermutes(rs);
    assert |s| == |multiset(s)| == |multiset(rs)| == |rs|;
  }

  /** Ranking raises exactly when some place has a rating `float()` rejects. */
  lemma RankTopRaises(ps: seq<Place>)
    ensures RankTop(ps).Raised? <==> exists i :: 0 <= i < |ps| && ps[i].rating.Garbled?
  {
  }

  /** Every shown entry is one of the ranked places, with that place's rating as its key. */
  lemma {:induction false} TopComesFromInput(ps: seq<Place>)
    ensures RankTop(ps).Returned? ==>
      forall i :: 0 <= i < |RankTop(ps).value| ==>
        RankTop(ps).value[i].place in ps && RankTop(ps).value[i].key.rating == RatingValue(RankTop(ps).value[i].place.rating)
  {
    match Decorate(ps)
    case None =>
    case Some(rs) =>
      var s := SortByRank(rs);
      SortPermutes(rs);
      var t := Top(s);
      forall i | 0 <= i < |t| ensures t[i].place in ps && t[i].key.rating == RatingValue(t[i].place.rating) {
        assert t[i] == s[i] && t[i] in multiset(s);
        assert t[i] in multiset(rs);
        var k :| 0 <= k < |rs| && rs[k] == t[i];
        assert ps[k] == t[i].place;
      }
  }

  /** A place from `find_places` is shown with a key whose rating is inside the band. */
  lemma ShownPlacesInBand(batches: seq<seq<RawPlace>>, minRating: real, maxRating: real)
    ensures var found := Aggregate(batches, minRating, maxRating);
      RankTop(found).Returned? ==>
        forall i :: 0 <= i < |RankTop(found).value| ==>
          RankTop(found).value[i].place in found
          && minRating <= RankTop(found).value[i].key.rating <= maxRating
  {
    var found := Aggregate(batches, minRating, maxRating);
    AggregateProperties(batches, minRating, maxRating);
    TopComesFromInput(found);
  }

  // ---------------------------------------------------------------------
  // Place card
  // ---------------------------------------------------------------------

  /** A bearing as `calculate_bearing` returns it: reduced into [0, 360). */
  type Bearing = b: real | 0.0 <= b < 360.0

  /**
   * The geometry helpers the card uses, given as functions of user
   * latitude, user longitude, place latitude and place longitude:
   * `calculate_distance` (whole metres) and `calculate_bearing`.
   */
  datatype Survey = Survey(distance: (real, real, real, real) -> nat, bearing: (real, real, real, real) -> Bearing)

  /** What the card prints for a missing distance, direction or address. */
  const NoValue: string := "—"

  /**
   * The fields of a place card: name, rating, rating count, distance text,
   * direction text and address. The HTML layout around them is fixed.
   */
  datatype Card = Card(
    name: Option<string>,
    rating: RawRating,
    ratingsTotal: int,
    distanceText: string,
    directionText: string,
    vicinity: string)

  /** `vicinity or "—"`. */
  function VicinityText(p: Place): string {
    if p.vicinity.Some? && p.vicinity.value != "" then p.vicinity.value else NoValue
  }

  /** `f"{dist} м"`. */
  function DistanceText(d: nat): string {
    NatToString(d) + " м"
  }

  /**
   * The card for `place`, seen from the user's position. Distance and
   * direction are shown only when both coordinates of the place are
   * present, and then the direction is the compass label of the bearing.
   * The rating count shown is `user_ratings_total or 0`.
   */
  function FormatPlaceCard(survey: Survey, userLat: real, userLon: real, p: Place): (c: Card)
    ensures c.name == p.name && c.rating == p.rating && c.ratingsTotal == p.ratingsTotal.GetOr(0)
    ensures c.vicinity == VicinityText(p)
    ensures p.lat.Some? && p.lon.Some? ==>
      c.distanceText == DistanceText(survey.distance(userLat, userLon, p.lat.value, p.lon.value))
      && c.directionText == Geospatial.BearingToDirection(survey.bearing(userLat, userLon, p.lat.value, p.lon.value))
    ensures !(p.lat.Some? && p.lon.Some?) ==> c.distanceText == NoValue && c.directionText == NoValue
  {
    var geo := p.lat.Some? && p.lon.Some?;
    var distance := if geo then DistanceText(survey.distance(userLat, userLon, p.lat.value, p.lon.value)) else NoValue;
    var direction := if geo then Geospatial.BearingToDirection(survey.bearing(userLat, userLon, p.lat.value, p.lon.value)) else NoValue;
    Card(p.name, p.rating, p.ratingsTotal.GetOr(0), distance, direction, VicinityText(p))
  }

  /** A shown distance always ends with the metre unit, so it never reads as the dash. */
  lemma DistanceIsNotDash(d: nat)
    ensures DistanceText(d) != NoValue && |DistanceText(d)| >= 3
  {
    assert |NoValue| == 1;
  }

  /** No compass label is the dash. */
  lemma LabelIsNotDash(b: Bearing)
    ensures Geospatial.BearingToDirection(b) != NoValue
  {
    assert forall i :: 0 <= i < |Geospatial.Directions| ==> |Geospatial.Directions[i]| > 1;
  }

  /** Distance and direction are either both shown or both dashed, the first exactly when the place has both coordinates. */
  lemma CardGeometryPresence(survey: Survey, userLat: real, userLon: real, p: Place)
    ensures var c := FormatPlaceCard(survey, userLat, userLon, p);
      (c.distanceText == NoValue <==> !(p.lat.Some? && p.lon.Some?))
      && (c.directionText == NoValue <==> !(p.lat.Some? && p.lon.Some?))
  {
    if p.lat.Some? && p.lon.Some? {
      DistanceIsNotDash(survey.distance(userLat, userLon, p.lat.value, p.lon.value));
      LabelIsNotDash(survey.bearing(userLat, userLon, p.lat.value, p.lon.value));
    }
  }

  /**
   * The card as written: `place.get("user_ratings_total", 0)` returns the
   * stored `None` of a normalised place without a count, since the key is
   * always present, and `int(None)` raises `TypeError`.
   */
  function FormatPlaceCardAsWritten(survey: Survey, userLat: real, userLon: real, p: Place): Outcome<Card> {
    if p.ratingsTotal.None? then Raised else Returned(FormatPlaceCard(survey, userLat, userLon, p))
  }

  /** As written, the card fails for every place without a rating count, and only for those. */
  lemma AsWrittenCardFailsWithoutCount(survey: Survey, userLat: real, userLon: real, p: Place)
    ensures FormatPlaceCardAsWritten(survey, userLat, userLon, p) == Raised <==> p.ratingsTotal.None?
    ensures p.ratingsTotal.Some? ==>
      FormatPlaceCardAsWritten(survey, userLat, userLon, p) == Returned(FormatPlaceCard(survey, userLat, userLon, p))
  {
  }

  /**
   * A concrete record without `user_ratings_total`, and without geometry so
   * that the card reaches the count on its own, survives normalisation but
   * crashes the card as written.
   */
  lemma MissingCountCrashesCard(survey: Survey)
    ensures var raw := RawPlace(Some("p1"), Some("Cafe"), Num(4.6), None, ["cafe"], None, None, Some("Tverskaya 1"), None);
      FormatPlaceCardAsWritten(survey, 55.75, 37.61, NormalizePlace(raw)) == Raised
      && FormatPlaceCard(survey, 55.75, 37.61, NormalizePlace(raw)).ratingsTotal == 0
  {
  }
}
