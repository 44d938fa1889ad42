/**
 * The place-search aggregator over the provider's Nearby Search endpoint:
 * per-category pagination (`fetch_places_by_type`), the preferred category
 * of a record (`get_primary_type`), first-occurrence deduplication
 * (`_dedupe_by_place_id`), record normalisation (`_normalize_place`) and the
 * whole pipeline (`find_places`).
 *
 * The provider, together with the network between it and the bot, is a
 * total function from a request to the outcome of that request. The
 * concurrent fan-out over categories is modelled as running the categories
 * one after the other in their fixed order; each category only appends to
 * its own list, so the merged result is the same.
 */
module GoogleMaps {
  import opened Wrappers
  import opened Text

  // ---------------------------------------------------------------------
  // Records
  // ---------------------------------------------------------------------

  /**
   * A record's `rating` field. `NoRating` is an absent or `None` field (the
   * empty string behaves the same everywhere it is read); `Num` is anything
   * `float()` accepts; `Garbled` is any other value, which `float()` rejects.
   */
  datatype RawRating = NoRating | Num(value: real) | Garbled

  /** A raw record as the provider returns it, reduced to the fields the bot reads. */
  datatype RawPlace = RawPlace(
    placeId: Option<string>,
    name: Option<string>,
    rating: RawRating,
    ratingsTotal: Option<int>,
    types: seq<string>,          // an absent or empty `types` is []
    lat: Option<real>,           // geometry.location.lat
    lng: Option<real>,           // geometry.location.lng
    vicinity: Option<string>,
    formattedAddress: Option<string>)

  /** A normalised record, as `_normalize_place` builds it. */
  datatype Place = Place(
    placeId: Option<string>,
    name: Option<string>,
    rating: RawRating,
    ratingsTotal: Option<int>,
    types: seq<string>,
    primaryType: string,
    lat: Option<real>,
    lon: Option<real>,
    vicinity: Option<string>)

  /** The value `in_range` compares: the rating, or 0.0 when absent or unparsable. */
  function RatingValue(r: RawRating): real {
    match r
    case Num(v) => v
    case _ => 0.0
  }

  // ---------------------------------------------------------------------
  // Provider requests and their outcomes
  // ---------------------------------------------------------------------

  /** The two URL shapes the fetch loop requests. */
  datatype Request =
    | Nearby(lat: real, lon: real, radius: int, placeType: string, lang: string, key: string)
    | NextPage(token: string, key: string)

  /**
   * What one request yields. `Page` is a decoded JSON body with its
   * `status`, `results` and `next_page_token`; `TransportError` is an
   * `httpx.RequestError` (connection failure, timeout), which the loop
   * catches; `HttpStatusError` is a non-2xx response, for which
   * `raise_for_status` raises an exception the loop does not catch; and
   * `MalformedBody` is a body `response.json()` cannot decode into an
   * object, which also escapes.
   */
  datatype PageOutcome =
    | Page(status: Option<string>, results: seq<RawPlace>, nextPageToken: Option<string>)
    | TransportError
    | HttpStatusError(code: int)
    | MalformedBody

  type Provider = Request -> PageOutcome

  /** At most this many requests per category: `for attempt in range(3)`. */
  const MaxRequests: nat := 3

  /** The categories `find_places` queries, in this order. */
  const PlaceTypes: seq<string> := ["restaurant", "cafe", "bar"]

  predicate IsOk(o: PageOutcome) { o.Page? && o.status == Some("OK") }

  /** An `OK` page with a non-empty `next_page_token`: the only case that requests again. */
  predicate HasNextPage(o: PageOutcome) {
    IsOk(o) && o.nextPageToken.Some? && o.nextPageToken.value != ""
  }

  /** The outcomes that make `fetch_places_by_type` raise. */
  predicate Raises(o: PageOutcome) { o.HttpStatusError? || o.MalformedBody? }

  /** What a page adds to the accumulated list: its results if `OK`, nothing otherwise. */
  function PageResults(o: PageOutcome): seq<RawPlace> {
    if IsOk(o) then o.results else []
  }

  /** The requests one category's fetch issued, and what the fetch returned. */
  datatype Crawl = Crawl(issued: seq<Request>, outcome: Outcome<seq<RawPlace>>)

  function Prepend(xs: seq<RawPlace>, o: Outcome<seq<RawPlace>>): Outcome<seq<RawPlace>> {
    match o
    case Returned(ys) => Returned(xs + ys)
    case Raised => Raised
  }

  /**
   * `not api_key or str(api_key).strip().lower() in ("none", "")`: a
   * missing, empty or whitespace-only key, or the word "none" in any case
   * and with any surrounding whitespace.
   */
  predicate KeyIsBlank(key: Option<string>) {
    key.None? || key.value == "" || AsciiLower(Strip(key.value)) == "none" || AsciiLower(Strip(key.value)) == ""
  }

  /** The pagination loop from request `req` on, with `budget` requests left. */
  function CrawlFrom(provider: Provider, req: Request, key: string, budget: nat): Crawl
    decreases budget
  {
    if budget == 0 then Crawl([], Returned([]))
    else
      var o := provider(req);
      if Raises(o) then Crawl([req], Raised)
      else if HasNextPage(o) then
        var rest := CrawlFrom(provider, NextPage(o.nextPageToken.value, key), key, budget - 1);
        Crawl([req] + rest.issued, Prepend(o.results, rest.outcome))
      else Crawl([req], Returned(PageResults(o)))
  }

  lemma PrependNothing(o: Outcome<seq<RawPlace>>)
    ensures Prepend([], o) == o
  {
    if o.Returned? {
      assert [] + o.value == o.value;
    }
  }

  /** The first request of a category. */
  function FirstRequest(key: string, lat: real, lon: real, radius: int, placeType: string, lang: string): Request {
    Nearby(lat, lon, radius, placeType, lang, key)
  }

  /** What `fetch_places_by_type` does for one category. */
  function FetchSpec(provider: Provider, apiKey: Option<string>, lat: real, lon: real, radius: int,
                     placeType: string, lang: string): Crawl
  {
    if KeyIsBlank(apiKey) then Crawl([], Returned([]))
    else CrawlFrom(provider, FirstRequest(apiKey.value, lat, lon, radius, placeType, lang), apiKey.value, MaxRequests)
  }

  /**
   * `fetch_places_by_type`: the bounded pagination loop. A blank key
   * issues no request. Otherwise the first request is the Nearby search;
   * an `OK` page with a continuation token leads to a request for that
   * token; every other outcome ends the loop, keeping the accumulated
   * results, except the two that raise.
   */
  method FetchPlacesByType(provider: Provider, apiKey: Option<string>, lat: real, lon: real, radius: int,
                           placeType: string, langCode: string) returns (c: Crawl)
    ensures c == FetchSpec(provider, apiKey, lat, lon, radius, placeType, langCode)
    ensures KeyIsBlank(apiKey) ==> c.issued == [] && c.outcome == Returned([])
  {
    if KeyIsBlank(apiKey) {
      return Crawl([], Returned([]));
    }
    var key := apiKey.value;
    ghost var whole := CrawlFrom(provider, FirstRequest(key, lat, lon, radius, placeType, langCode), key, MaxRequests);
    var url := Nearby(lat, lon, radius, placeType, langCode, key);
    var resultsForType: seq<RawPlace> := [];
    var issued: seq<Request> := [];
    PrependNothing(whole.outcome);
    for attempt := 0 to MaxRequests
      invariant Resumes(whole, issued, resultsForType, CrawlFrom(provider, url, key, MaxRequests - attempt))
    {
      var response := provider(url);
      if HasNextPage(response) {
        ResumeNext(provider, url, key, MaxRequests - attempt, whole, issued, resultsForType);
      } else {
        ResumeStop(provider, url, key, MaxRequests - attempt, whole, issued, resultsForType);
      }
      issued := issued + [url];
      if Raises(response) {
        return Crawl(issued, Raised);
      }
      if IsOk(response) {
        resultsForType := resultsForType + response.results;
        if HasNextPage(response) {
          url := NextPage(response.nextPageToken.value, key);
          continue;
        }
        // `break` out of the loop and return what was accumulated.
        return Crawl(issued, Returned(resultsForType));
      }
      // ZERO_RESULTS, any other status, or a transport error: stop.
      assert resultsForType + PageResults(response) == resultsForType;
      return Crawl(issued, Returned(resultsForType));
    }
    assert issued + [] == issued && resultsForType + [] == resultsForType;
    return Crawl(issued, Returned(resultsForType));
  }

  /** The loop state: what was issued and accumulated so far, followed by the crawl still to come, is the whole crawl. */
  ghost predicate Resumes(whole: Crawl, issued: seq<Request>, acc: seq<RawPlace>, rest: Crawl) {
    whole == Crawl(issued + rest.issued, Prepend(acc, rest.outcome))
  }

  lemma PrependTwice(a: seq<RawPlace>, b: seq<RawPlace>, o: Outcome<seq<RawPlace>>)
    ensures Prepend(a, Prepend(b, o)) == Prepend(a + b, o)
  {
    if o.Returned? {
      assert a + (b + o.value) == (a + b) + o.value;
    }
  }

  /** Following a continuation token keeps the loop state. */
  lemma ResumeNext(provider: Provider, url: Request, key: string, budget: nat, whole: Crawl,
                   issued: seq<Request>, acc: seq<RawPlace>)
    requires budget > 0 && HasNextPage(provider(url))
    requires Resumes(whole, issued, acc, CrawlFrom(provider, url, key, budget))
    ensures Resumes(whole, issued + [url], acc + provider(url).results,
                    CrawlFrom(provider, NextPage(provider(url).nextPageToken.value, key), key, budget - 1))
  {
    var o := provider(url);
    var rest := CrawlFrom(provider, NextPage(o.nextPageToken.value, key), key, budget - 1);
    assert CrawlFrom(provider, url, key, budget) == Crawl([url] + rest.issued, Prepend(o.results, rest.outcome));
    assert issued + ([url] + rest.issued) == (issued + [url]) + rest.issued;
    PrependTwice(acc, o.results, rest.outcome);
  }

  /** A page without a continuation ends the crawl. */
  lemma ResumeStop(provider: Provider, url: Request, key: string, budget: nat, whole: Crawl,
                   issued: seq<Request>, acc: seq<RawPlace>)
    requires budget > 0 && !HasNextPage(provider(url))
    requires Resumes(whole, issued, acc, CrawlFrom(provider, url, key, budget))
    ensures whole == Crawl(issued + [url], if Raises(provider(url)) then Raised else Returned(acc + PageResults(provider(url))))
  {
  }

  /** The results of the `OK` pages among the outcomes of `reqs`, in request order. */
  function ConcatResults(provider: Provider, reqs: seq<Request>): seq<RawPlace>
    decreases |reqs|
  {
    if reqs == [] then [] else PageResults(provider(reqs[0])) + ConcatResults(provider, reqs[1..])
  }

  /**
   * At most `budget` requests are issued, and at least one when the budget
   * allows; the first is `req`; each later one asks for the token of the
   * page before it, which was `OK` and carried a non-empty token.
   */
  lemma {:induction false} CrawlChain(provider: Provider, req: Request, key: string, budget: nat)
    ensures var c := CrawlFrom(provider, req, key, budget);
      |c.issued| <= budget && (budget > 0 ==> |c.issued| >= 1 && c.issued[0] == req)
      && forall i :: 0 <= i < |c.issued| - 1 ==>
           HasNextPage(provider(c.issued[i])) && c.issued[i + 1] == NextPage(provider(c.issued[i]).nextPageToken.value, key)
    decreases budget
  {
    if budget > 0 {
      var o := provider(req);
      if !Raises(o) && HasNextPage(o) {
        var next := NextPage(o.nextPageToken.value, key);
        CrawlChain(provider, next, key, budget - 1);
        var rest := CrawlFrom(provider, next, key, budget - 1);
        var c := CrawlFrom(provider, req, key, budget);
        assert c.issued == [req] + rest.issued;
        forall i | 1 <= i < |c.issued| - 1
          ensures HasNextPage(provider(c.issued[i])) && c.issued[i + 1] == NextPage(provider(c.issued[i]).nextPageToken.value, key)
        {
          assert c.issued[i] == rest.issued[i - 1] && c.issued[i + 1] == rest.issued[i];
        }
      }
    }
  }

  /**
   * The loop ends before its budget only at a page that offers no
   * continuation; the fetch raises exactly when the last request raised;
   * and otherwise it returns the concatenated results of the `OK` pages.
   */
  lemma {:induction false} CrawlResult(provider: Provider, req: Request, key: string, budget: nat)
    requires budget > 0
    ensures var c := CrawlFrom(provider, req, key, budget);
      var last := provider(c.issued[|c.issued| - 1]);
      |c.issued| >= 1
      && (|c.issued| < budget ==> !HasNextPage(last))
      && (c.outcome == Raised <==> Raises(last))
      && (!Raises(last) ==> c.outcome == Returned(ConcatResults(provider, c.issued)))
    decreases budget
  {
    var o := provider(req);
    var c := CrawlFrom(provider, req, key, budget);
    if !Raises(o) && HasNextPage(o) && budget > 1 {
      var next := NextPage(o.nextPageToken.value, key);
      CrawlResult(provider, next, key, budget - 1);
      var rest := CrawlFrom(provider, next, key, budget - 1);
      assert c.issued == [req] + rest.issued;
      assert c.issued[1..] == rest.issued;
      assert c.issued[|c.issued| - 1] == rest.issued[|rest.issued| - 1];
    } else if !Raises(o) && HasNextPage(o) {
      assert c.issued == [req] && c.issued[1..] == [];
      assert ConcatResults(provider, c.issued) == o.results + ConcatResults(provider, []);
      assert o.results + [] == o.results;
    } else {
      assert c.issued == [req] && c.issued[1..] == [];
      assert ConcatResults(provider, c.issued) == PageResults(o) + ConcatResults(provider, []);
      assert PageResults(o) + [] == PageResults(o);
    }
  }

  /** A transport error on the first request gives an empty list, not an exception. */
  lemma TransportErrorIsEmpty(provider: Provider, apiKey: Option<string>, lat: real, lon: real, radius: int,
                              placeType: string, lang: string)
    requires !KeyIsBlank(apiKey)
    requires provider(FirstRequest(apiKey.value, lat, lon, radius, placeType, lang)) == TransportError
    ensures FetchSpec(provider, apiKey, lat, lon, radius, placeType, lang).outcome == Returned([])
  {
  }

  /** A missing or empty key is blank. */
  lemma MissingKeysAreBlank()
    ensures KeyIsBlank(None) && KeyIsBlank(Some(""))
  {
  }

  /** The word "None", as `str(None)` spells it, is blank. */
  lemma NoneWordIsBlank()
    ensures KeyIsBlank(Some("None"))
  {
    assert Strip("None") == "None";
    assert AsciiLower("None") == "none";
  }

  lemma TrimNewline()
    ensures TrimRight("none\n") == "none"
  {
    assert "none\n"[..4] == "none";
  }

  /** The word "none" surrounded by whitespace is blank. */
  lemma PaddedNoneIsBlank()
    ensures KeyIsBlank(Some(" none\n"))
  {
    assert " none\n"[1..] == "none\n";
    assert TrimLeft(" none\n") == "none\n";
    TrimNewline();
    assert AsciiLower("none") == "none";
  }

  /**
   * Every key made of whitespace, then nothing or the word "none" in any
   * case, then whitespace, is blank.
   */
  lemma PaddedKeyIsBlank(a: string, m: string, b: string)
    requires AllSpace(a) && AllSpace(b) && (m == "" || AsciiLower(m) == "none")
    ensures KeyIsBlank(Some(a + m + b))
  {
    if m != "" {
      assert LowerChar(m[0]) == 'n' && LowerChar(m[3]) == 'e';
    }
    StripPadded(a, m, b);
  }

  /** And every blank key has that shape: whitespace, nothing or "none" in some case, whitespace. */
  lemma BlankKeyShape(k: string)
    requires KeyIsBlank(Some(k))
    ensures exists i, j :: 0 <= i <= j <= |k| && AllSpace(k[..i]) && AllSpace(k[j..])
                           && (k[i..j] == "" || AsciiLower(k[i..j]) == "none")
  {
    StripShape(k);
    var r := Strip(k);
    var i := |k| - |TrimLeft(k)|;
    assert k[i..i + |r|] == r;
    if k == "" {
      assert k[0..0] == "";
    }
  }

  /** A key whose stripped, lower-cased form is neither empty nor "none" is not blank, and conversely. */
  lemma KeyIsBlankExactly(k: string)
    ensures KeyIsBlank(Some(k)) <==> AsciiLower(Strip(k)) == "none" || AsciiLower(Strip(k)) == ""
  {
    if k == "" {
      assert Strip(k) == "";
    }
  }

  lemma TrimBlank()
    ensures TrimLeft(" ") == ""
  {
  }

  /** A key of whitespace only is blank. */
  lemma WhitespaceKeyIsBlank()
    ensures KeyIsBlank(Some("\t "))
  {
    TrimBlank();
    assert "\t "[1..] == " ";
    assert Strip("\t ") == "";
  }

  // ---------------------------------------------------------------------
  // Primary type
  // ---------------------------------------------------------------------

  /** The preference order of `get_primary_type`. */
  const Priority: seq<string> := [
    "restaurant", "cafe", "bar", "bakery", "meal_takeaway", "meal_delivery",
    "food", "point_of_interest", "establishment"
  ]

  /** What `get_primary_type` returns for an empty type list. */
  const DefaultType: string := "point_of_interest"

  /** The first entry of `Priority`, from position `i` on, that occurs in `types`. */
  function FirstListedFrom(types: seq<string>, i: nat): (t: Option<string>)
    requires i <= |Priority|
    ensures t.Some? ==> (t.value in types
      && exists k :: i <= k < |Priority| && Priority[k] == t.value && forall j :: i <= j < k ==> Priority[j] !in types)
    ensures t.None? ==> forall j :: i <= j < |Priority| ==> Priority[j] !in types
    decreases |Priority| - i
  {
    if i == |Priority| then None
    else if Priority[i] in types then Some(Priority[i])
    else FirstListedFrom(types, i + 1)
  }

  /**
   * The category `get_primary_type` picks: the default for no types,
   * otherwise the earliest entry of the priority list present, otherwise
   * the first type given; for non-empty input always one of the input's types.
   */
  function PrimaryTypeOf(types: seq<string>): (t: string)
    ensures types == [] ==> t == DefaultType
    ensures types != [] ==> t in types
    ensures types != [] && (exists i :: 0 <= i < |Priority| && Priority[i] in types) ==>
      exists k :: 0 <= k < |Priority| && Priority[k] == t && forall j :: 0 <= j < k ==> Priority[j] !in types
    ensures types != [] && (forall i :: 0 <= i < |Priority| ==> Priority[i] !in types) ==> t == types[0]
  {
    if types == [] then DefaultType
    else match FirstListedFrom(types, 0)
      case Some(t) => t
      case None => types[0]
  }

  /** `get_primary_type`: walks the priority list with an early return. */
  method GetPrimaryType(placeTypes: seq<string>) returns (t: string)
    ensures t == PrimaryTypeOf(placeTypes)
  {
    if |placeTypes| == 0 {
      return DefaultType;
    }
    var typesSet := set x | x in placeTypes;
    for i := 0 to |Priority|
      invariant FirstListedFrom(placeTypes, i) == FirstListedFrom(placeTypes, 0)
    {
      if Priority[i] in typesSet {
        return Priority[i];
      }
    }
    return placeTypes[0];
  }

  // ---------------------------------------------------------------------
  // Deduplication
  // ---------------------------------------------------------------------

  /** `pid` is truthy: present and non-empty. */
  predicate HasId(p: RawPlace) { p.placeId.Some? && p.placeId.value != "" }

  /** The ids carried by the records of `ps` that have one. */
  function IdSet(ps: seq<RawPlace>): set<string> {
    set i | 0 <= i < |ps| && HasId(ps[i]) :: ps[i].placeId.value
  }

  /** No two records share a `place_id`. */
  predicate UniqueIds(ps: seq<RawPlace>) {
    forall i, j :: 0 <= i < j < |ps| ==> ps[i].placeId != ps[j].placeId
  }

  /** The first record of `ps` whose id is `id`. */
  function FirstWithId(ps: seq<RawPlace>, id: string): Option<RawPlace>
    decreases |ps|
  {
    if ps == [] then None
    else if ps[0].placeId == Some(id) then Some(ps[0])
    else FirstWithId(ps[1..], id)
  }

  /**
   * The position of the first record of `ps` whose id is `id`, or `|ps|`
   * when there is none.
   */
  function FirstIndex(ps: seq<RawPlace>, id: Option<string>): (n: nat)
    ensures n <= |ps|
    ensures n < |ps| ==> ps[n].placeId == id
    ensures forall k :: 0 <= k < n ==> ps[k].placeId != id
    decreases |ps|
  {
    if ps == [] then 0
    else if ps[0].placeId == id then 0
    else
      var n := 1 + FirstIndex(ps[1..], id);
      assert forall k :: 1 <= k < n ==> ps[k] == ps[1..][k - 1];
      n
  }

  /** The ids of `r` appear in the order in which they first occur in `ps`. */
  predicate InFirstOrder(r: seq<RawPlace>, ps: seq<RawPlace>) {
    forall i, j :: 0 <= i < j < |r| ==> FirstIndex(ps, r[i].placeId) < FirstIndex(ps, r[j].placeId)
  }

  /** `a` is `b` with some elements left out, in `b`'s order. */
  predicate IsSubsequence<T(==)>(a: seq<T>, b: seq<T>)
    decreases |b|
  {
    if |a| == 0 then true
    else if |b| == 0 then false
    else if a[|a| - 1] == b[|b| - 1] then IsSubsequence(a[..|a| - 1], b[..|b| - 1])
    else IsSubsequence(a, b[..|b| - 1])
  }

  /** What the `_dedupe_by_place_id` loop has produced after reading `ps`. */
  function Dedupe(ps: seq<RawPlace>): seq<RawPlace>
    decreases |ps|
  {
    if ps == [] then []
    else
      var kept := Dedupe(ps[..|ps| - 1]);
      var p := ps[|ps| - 1];
      if HasId(p) && p.placeId.value !in IdSet(kept) then kept + [p] else kept
  }

  /** `_dedupe_by_place_id`: keeps the first record of each id and drops records without one. */
  method DedupeByPlaceId(places: seq<RawPlace>) returns (deduped: seq<RawPlace>)
    ensures deduped == Dedupe(places)
  {
    var seen: set<string> := {};
    deduped := [];
    for i := 0 to |places|
      invariant deduped == Dedupe(places[..i])
      invariant seen == IdSet(deduped)
    {
      var p := places[i];
      assert places[..i + 1][..i] == places[..i];
      IdSetAppend(deduped, p);
      if p.placeId.Some? && p.placeId.value != "" && p.placeId.value !in seen {
        seen := seen + {p.placeId.value};
        deduped := deduped + [p];
      }
    }
    assert places[..|places|] == places;
  }

  lemma IdSetAppend(ps: seq<RawPlace>, p: RawPlace)
    ensures IdSet(ps + [p]) == IdSet(ps) + (if HasId(p) then {p.placeId.value} else {})
  {
    var qs := ps + [p];
    forall id | id in IdSet(qs) ensures id in IdSet(ps) + (if HasId(p) then {p.placeId.value} else {}) {
      var i :| 0 <= i < |qs| && HasId(qs[i]) && qs[i].placeId.value == id;
      if i < |ps| { assert qs[i] == ps[i]; }
    }
    forall id | id in IdSet(ps) ensures id in IdSet(qs) {
      var i :| 0 <= i < |ps| && HasId(ps[i]) && ps[i].placeId.value == id;
      assert qs[i] == ps[i];
    }
    if HasId(p) {
      assert qs[|ps|] == p;
    }
  }

  /** The deduplicated list carries exactly the input's ids, and every record in it has one. */
  lemma {:induction false} DedupeIds(ps: seq<RawPlace>)
    ensures var r := Dedupe(ps);
      IdSet(r) == IdSet(ps) && forall k :: 0 <= k < |r| ==> HasId(r[k])
    decreases |ps|
  {
    if ps != [] {
      var pre, p := ps[..|ps| - 1], ps[|ps| - 1];
      assert pre + [p] == ps;
      DedupeIds(pre);
      var kept := Dedupe(pre);
      IdSetAppend(pre, p);
      if HasId(p) && p.placeId.value !in IdSet(kept) {
        IdSetAppend(kept, p);
      }
    }
  }

  /** No id occurs twice in the deduplicated list. */
  lemma {:induction false} DedupeUnique(ps: seq<RawPlace>)
    ensures UniqueIds(Dedupe(ps))
    decreases |ps|
  {
    if ps != [] {
      var pre, p := ps[..|ps| - 1], ps[|ps| - 1];
      DedupeUnique(pre);
      DedupeIds(pre);
      var kept := Dedupe(pre);
      if HasId(p) && p.placeId.value !in IdSet(kept) {
        var r := kept + [p];
        forall i, j | 0 <= i < j < |r| ensures r[i].placeId != r[j].placeId {
          if j == |r| - 1 {
            assert r[i] == kept[i] && HasId(kept[i]);
            assert kept[i].placeId.value in IdSet(kept);
          } else {
            assert r[i] == kept[i] && r[j] == kept[j];
          }
        }
      }
    }
  }

  /** The deduplicated list is drawn from the input, in the input's order. */
  lemma {:induction false} DedupeSubsequence(ps: seq<RawPlace>)
    ensures IsSubsequence(Dedupe(ps), ps)
    decreases |ps|
  {
    if ps != [] {
      var pre, p := ps[..|ps| - 1], ps[|ps| - 1];
      assert pre + [p] == ps;
      DedupeSubsequence(pre);
      var kept := Dedupe(pre);
      if HasId(p) && p.placeId.value !in IdSet(kept) {
        var r := kept + [p];
        assert r[..|r| - 1] == kept;
      } else {
        SubsequenceExtend(kept, pre, p);
      }
    }
  }

  /** Appending a record moves no id's first position, and gives a new id the last one. */
  lemma FirstIndexAppend(ps: seq<RawPlace>, p: RawPlace, id: Option<string>)
    ensures FirstIndex(ps + [p], id) ==
      if FirstIndex(ps, id) < |ps| then FirstIndex(ps, id)
      else if p.placeId == id then |ps| else |ps| + 1
  {
    var qs := ps + [p];
    var n, m := FirstIndex(ps, id), FirstIndex(qs, id);
    assert forall k :: 0 <= k < |ps| ==> qs[k] == ps[k];
    assert qs[|ps|] == p;
    if n < |ps| {
      assert qs[n] == ps[n];
    }
  }

  /** The deduplicated list takes the ids in the order in which they first occur in the input. */
  lemma {:induction false} DedupeOrder(ps: seq<RawPlace>)
    ensures InFirstOrder(Dedupe(ps), ps)
    decreases |ps|
  {
    if ps != [] {
      var pre, p := ps[..|ps| - 1], ps[|ps| - 1];
      assert pre + [p] == ps;
      DedupeOrder(pre);
      DedupeIds(pre);
      var kept := Dedupe(pre);
      KeptIdsOccur(kept, pre);
      if HasId(p) && p.placeId.value !in IdSet(kept) {
        NewIdIsLast(pre, p);
        OrderAppendOld(kept, pre, p);
        OrderExtend(kept, ps, p);
      } else {
        OrderAppendOld(kept, pre, p);
      }
    }
  }

  /** A list whose ids all occur in `ps` has each of them at a position of `ps`. */
  lemma KeptIdsOccur(kept: seq<RawPlace>, ps: seq<RawPlace>)
    requires IdSet(kept) == IdSet(ps) && forall k :: 0 <= k < |kept| ==> HasId(kept[k])
    ensures forall k :: 0 <= k < |kept| ==> FirstIndex(ps, kept[k].placeId) < |ps|
  {
    forall k | 0 <= k < |kept| ensures FirstIndex(ps, kept[k].placeId) < |ps| {
      assert kept[k].placeId.value in IdSet(kept);
      var x :| 0 <= x < |ps| && HasId(ps[x]) && ps[x].placeId.value == kept[k].placeId.value;
    }
  }

  /** An id that does not occur in `pre` first occurs at the appended record. */
  lemma NewIdIsLast(pre: seq<RawPlace>, p: RawPlace)
    requires HasId(p) && p.placeId.value !in IdSet(pre)
    ensures FirstIndex(pre, p.placeId) == |pre| && FirstIndex(pre + [p], p.placeId) == |pre|
  {
    assert forall k :: 0 <= k < |pre| && HasId(pre[k]) ==> pre[k].placeId.value in IdSet(pre);
    FirstIndexAppend(pre, p, p.placeId);
  }

  /** Appending a record to the input keeps the order of ids that already occur in it. */
  lemma OrderAppendOld(kept: seq<RawPlace>, pre: seq<RawPlace>, p: RawPlace)
    requires InFirstOrder(kept, pre)
    requires forall k :: 0 <= k < |kept| ==> FirstIndex(pre, kept[k].placeId) < |pre|
    ensures InFirstOrder(kept, pre + [p])
    ensures forall k :: 0 <= k < |kept| ==> FirstIndex(pre + [p], kept[k].placeId) == FirstIndex(pre, kept[k].placeId)
  {
    forall k | 0 <= k < |kept|
      ensures FirstIndex(pre + [p], kept[k].placeId) == FirstIndex(pre, kept[k].placeId)
    {
      FirstIndexAppend(pre, p, kept[k].placeId);
    }
  }

  /** A record whose id first occurs after every id of an ordered list extends it in order. */
  lemma OrderExtend(kept: seq<RawPlace>, ps: seq<RawPlace>, p: RawPlace)
    requires InFirstOrder(kept, ps)
    requires forall k :: 0 <= k < |kept| ==> FirstIndex(ps, kept[k].placeId) < FirstIndex(ps, p.placeId)
    ensures InFirstOrder(kept + [p], ps)
  {
    var r := kept + [p];
    forall i, j | 0 <= i < j < |r|
      ensures FirstIndex(ps, r[i].placeId) < FirstIndex(ps, r[j].placeId)
    {
      assert r[i] == kept[i];
      if j < |kept| {
        assert r[j] == kept[j];
      }
    }
  }

  /**
   * The deduplicated list holds exactly the ids of the input, each once,
   * every record in it has an id, and it is drawn from the input, its ids
   * in the order of their first occurrence there.
   */
  lemma DedupeShape(ps: seq<RawPlace>)
    ensures var r := Dedupe(ps);
      IdSet(r) == IdSet(ps) && UniqueIds(r) && (forall k :: 0 <= k < |r| ==> HasId(r[k]))
      && IsSubsequence(r, ps) && InFirstOrder(r, ps)
  {
    DedupeBasics(ps);
    DedupeOrder(ps);
  }

  /** `DedupeShape` without the order of first occurrence. */
  lemma DedupeBasics(ps: seq<RawPlace>)
    ensures var r := Dedupe(ps);
      IdSet(r) == IdSet(ps) && UniqueIds(r) && (forall k :: 0 <= k < |r| ==> HasId(r[k]))
      && IsSubsequence(r, ps)
  {
    DedupeIds(ps);
    DedupeUnique(ps);
    DedupeSubsequence(ps);
  }

  /** Each kept record is the first record of the input that carries its id. */
  lemma {:induction false} DedupeKeepsFirst(ps: seq<RawPlace>)
    ensures var r := Dedupe(ps);
      forall k :: 0 <= k < |r| ==> HasId(r[k]) && FirstWithId(ps, r[k].placeId.value) == Some(r[k])
    decreases |ps|
  {
    if ps != [] {
      var pre, p := ps[..|ps| - 1], ps[|ps| - 1];
      assert pre + [p] == ps;
      DedupeKeepsFirst(pre);
      DedupeBasics(pre);
      var kept := Dedupe(pre);
      var r := Dedupe(ps);
      forall k | 0 <= k < |r| ensures HasId(r[k]) && FirstWithId(ps, r[k].placeId.value) == Some(r[k]) {
        var id := r[k].placeId.value;
        if k < |kept| {
          assert r[k] == kept[k];
          FirstWithIdAppend(pre, p, id);
        } else {
          assert r[k] == p && HasId(p) && id !in IdSet(pre);
          FirstWithIdAppend(pre, p, id);
          FirstWithIdAbsent(pre, id);
        }
      }
    }
  }

  lemma {:induction false} FirstWithIdAppend(ps: seq<RawPlace>, p: RawPlace, id: string)
    ensures FirstWithId(ps + [p], id) ==
      if FirstWithId(ps, id).Some? then FirstWithId(ps, id)
      else if p.placeId == Some(id) then Some(p) else None
    decreases |ps|
  {
    if ps != [] {
      assert (ps + [p])[1..] == ps[1..] + [p];
      FirstWithIdAppend(ps[1..], p, id);
    }
  }

  lemma {:induction false} FirstWithIdAbsent(ps: seq<RawPlace>, id: string)
    requires id != "" && id !in IdSet(ps)
    ensures FirstWithId(ps, id) == None
    decreases |ps|
  {
    if ps != [] {
      assert ps[0].placeId == Some(id) ==> id in IdSet(ps);
      assert IdSet(ps[1..]) <= IdSet(ps) by {
        forall x | x in IdSet(ps[1..]) ensures x in IdSet(ps) {
          var i :| 0 <= i < |ps[1..]| && HasId(ps[1..][i]) && ps[1..][i].placeId.value == x;
          assert ps[i + 1] == ps[1..][i];
        }
      }
      FirstWithIdAbsent(ps[1..], id);
    }
  }

  /** Deduplicating twice changes nothing. */
  lemma DedupeIdempotent(ps: seq<RawPlace>)
    ensures Dedupe(Dedupe(ps)) == Dedupe(ps)
  {
    DedupeBasics(ps);
    DedupeOfUnique(Dedupe(ps));
  }

  /** A list whose records all have distinct ids is its own deduplication. */
  lemma {:induction false} DedupeOfUnique(ps: seq<RawPlace>)
    requires UniqueIds(ps) && forall k :: 0 <= k < |ps| ==> HasId(ps[k])
    ensures Dedupe(ps) == ps
    decreases |ps|
  {
    if ps != [] {
      var pre, p := ps[..|ps| - 1], ps[|ps| - 1];
      assert forall i, j :: 0 <= i < j < |pre| ==> pre[i] == ps[i] && pre[j] == ps[j];
      DedupeOfUnique(pre);
      assert pre + [p] == ps;
    }
  }

  // ---------------------------------------------------------------------
  // Subsequences
  // ---------------------------------------------------------------------

  lemma {:induction false} SubsequenceExtend<T>(a: seq<T>, b: seq<T>, x: T)
    requires IsSubsequence(a, b)
    ensures IsSubsequence(a, b + [x])
    decreases |b|, 1
  {
    var bx := b + [x];
    assert bx[..|bx| - 1] == b;
    if |a| > 0 && a[|a| - 1] == x {
      SubsequenceDropLast(a, b);
    }
  }

  lemma {:induction false} SubsequenceDropLast<T>(a: seq<T>, b: seq<T>)
    requires |a| > 0 && IsSubsequence(a, b)
    ensures IsSubsequence(a[..|a| - 1], b)
    decreases |b|, 0
  {
    var a', b' := a[..|a| - 1], b[..|b| - 1];
    assert b' + [b[|b| - 1]] == b;
    if a[|a| - 1] == b[|b| - 1] {
      SubsequenceExtend(a', b', b[|b| - 1]);
    } else {
      SubsequenceDropLast(a, b');
      SubsequenceExtend(a', b', b[|b| - 1]);
    }
  }

  lemma {:induction false} SubsequenceTrans<T>(a: seq<T>, b: seq<T>, c: seq<T>)
    requires IsSubsequence(a, b) && IsSubsequence(b, c)
    ensures IsSubsequence(a, c)
    decreases |c|
  {
    if |a| > 0 {
      var a', b', c' := a[..|a| - 1], b[..|b| - 1], c[..|c| - 1];
      if b[|b| - 1] == c[|c| - 1] {
        if a[|a| - 1] == b[|b| - 1] {
          SubsequenceTrans(a', b', c');
        } else {
          SubsequenceTrans(a, b', c');
        }
      } else {
        SubsequenceTrans(a, b, c');
        if a[|a| - 1] == c[|c| - 1] {
          SubsequenceDropLast(a, c');
        }
      }
    }
  }

  lemma {:induction false} SubsequenceMembers<T>(a: seq<T>, b: seq<T>)
    requires IsSubsequence(a, b)
    ensures forall x :: x in a ==> x in b
    decreases |b|
  {
    if |a| > 0 {
      var a', b' := a[..|a| - 1], b[..|b| - 1];
      assert a == a' + [a[|a| - 1]] && b == b' + [b[|b| - 1]];
      if a[|a| - 1] == b[|b| - 1] {
        SubsequenceMembers(a', b');
      } else {
        SubsequenceMembers(a, b');
      }
    }
  }

  // ---------------------------------------------------------------------
  // Rating band filter and normalisation
  // ---------------------------------------------------------------------

  /** `in_range`: the inclusive band [minRating, maxRating]. */
  predicate InRange(p: RawPlace, minRating: real, maxRating: real) {
    minRating <= RatingValue(p.rating) <= maxRating
  }

  /** `[p for p in ps if in_range(p)]`. */
  function FilterInRange(ps: seq<RawPlace>, minRating: real, maxRating: real): (r: seq<RawPlace>)
    decreases |ps|
  {
    if ps == [] then []
    else
      var kept := FilterInRange(ps[..|ps| - 1], minRating, maxRating);
      if InRange(ps[|ps| - 1], minRating, maxRating) then kept + [ps[|ps| - 1]] else kept
  }

  /** The filter keeps every copy of an in-band record and no copy of any other. */
  lemma {:induction false} FilterCounts(ps: seq<RawPlace>, minRating: real, maxRating: real)
    ensures var r := FilterInRange(ps, minRating, maxRating);
      forall p :: multiset(r)[p] == if InRange(p, minRating, maxRating) then multiset(ps)[p] else 0
    decreases |ps|
  {
    if ps != [] {
      var pre, x := ps[..|ps| - 1], ps[|ps| - 1];
      assert pre + [x] == ps;
      FilterCounts(pre, minRating, maxRating);
      assert multiset(ps) == multiset(pre) + multiset{x};
      var kept := FilterInRange(pre, minRating, maxRating);
      if InRange(x, minRating, maxRating) {
        assert multiset(kept + [x]) == multiset(kept) + multiset{x};
      }
    }
  }

  /** The filter keeps a list's order of first occurrence in `flat`. */
  lemma {:induction false} FilterKeepsOrder(ps: seq<RawPlace>, flat: seq<RawPlace>, minRating: real, maxRating: real)
    requires InFirstOrder(ps, flat)
    ensures InFirstOrder(FilterInRange(ps, minRating, maxRating), flat)
    decreases |ps|
  {
    if ps != [] {
      var pre, x := ps[..|ps| - 1], ps[|ps| - 1];
      assert forall i :: 0 <= i < |pre| ==> pre[i] == ps[i];
      FilterKeepsOrder(pre, flat, minRating, maxRating);
      var kept := FilterInRange(pre, minRating, maxRating);
      var r := FilterInRange(ps, minRating, maxRating);
      if InRange(x, minRating, maxRating) {
        FilterCounts(pre, minRating, maxRating);
        forall i, j | 0 <= i < j < |r|
          ensures FirstIndex(flat, r[i].placeId) < FirstIndex(flat, r[j].placeId)
        {
          assert r[i] == kept[i];
          if j < |kept| {
            assert r[j] == kept[j];
          } else {
            assert multiset(kept)[kept[i]] > 0;
            var k :| 0 <= k < |pre| && pre[k] == kept[i];
          }
        }
      }
    }
  }

  /**
   * The filter keeps exactly the in-band records, every copy of them, in
   * order, so it keeps distinct ids distinct.
   */
  lemma FilterShape(ps: seq<RawPlace>, minRating: real, maxRating: real)
    ensures var r := FilterInRange(ps, minRating, maxRating);
      IsSubsequence(r, ps)
      && (forall p :: p in r <==> p in ps && InRange(p, minRating, maxRating))
      && (forall p :: multiset(r)[p] == if InRange(p, minRating, maxRating) then multiset(ps)[p] else 0)
      && (UniqueIds(ps) ==> UniqueIds(r))
  {
    FilterMembers(ps, minRating, maxRating);
    FilterCounts(ps, minRating, maxRating);
  }

  /** The membership, order and distinct-id part of `FilterShape`. */
  lemma {:induction false} FilterMembers(ps: seq<RawPlace>, minRating: real, maxRating: real)
    ensures var r := FilterInRange(ps, minRating, maxRating);
      IsSubsequence(r, ps)
      && (forall p :: p in r <==> p in ps && InRange(p, minRating, maxRating))
      && (UniqueIds(ps) ==> UniqueIds(r))
    decreases |ps|
  {
    if ps != [] {
      var pre, p := ps[..|ps| - 1], ps[|ps| - 1];
      assert pre + [p] == ps;
      FilterMembers(pre, minRating, maxRating);
      var kept := FilterInRange(pre, minRating, maxRating);
      var r := FilterInRange(ps, minRating, maxRating);
      if InRange(p, minRating, maxRating) {
        assert r[..|r| - 1] == kept;
        if UniqueIds(ps) {
          forall i, j | 0 <= i < j < |r| ensures r[i].placeId != r[j].placeId {
            if j == |r| - 1 {
              assert r[i] in kept;
              var k :| 0 <= k < |pre| && pre[k] == r[i];
              assert ps[k] == r[i] && ps[|ps| - 1] == r[j];
            } else {
              assert r[i] == kept[i] && r[j] == kept[j];
            }
          }
        }
      } else {
        SubsequenceExtend(kept, pre, p);
      }
    }
  }

  /** `p.get("vicinity") or p.get("formatted_address")`. */
  function VicinityOf(p: RawPlace): Option<string> {
    if p.vicinity.Some? && p.vicinity.value != "" then p.vicinity else p.formattedAddress
  }

  /**
   * `_normalize_place`: the fixed-schema record. The id, name, rating,
   * rating count, types and coordinates are carried over unchanged.
   */
  function NormalizePlace(p: RawPlace): (q: Place)
    ensures q.placeId == p.placeId && q.rating == p.rating && q.ratingsTotal == p.ratingsTotal
    ensures q.name == p.name && q.types == p.types && q.lat == p.lat && q.lon == p.lng
    ensures q.primaryType == PrimaryTypeOf(p.types)
    ensures p.vicinity.Some? && p.vicinity.value != "" ==> q.vicinity == p.vicinity
    ensures !(p.vicinity.Some? && p.vicinity.value != "") ==> q.vicinity == p.formattedAddress
  {
    Place(p.placeId, p.name, p.rating, p.ratingsTotal, p.types, PrimaryTypeOf(p.types), p.lat, p.lng, VicinityOf(p))
  }

  /** `[_normalize_place(p) for p in ps]`. */
  function NormalizeAll(ps: seq<RawPlace>): (r: seq<Place>)
    ensures |r| == |ps| && forall i :: 0 <= i < |ps| ==> r[i] == NormalizePlace(ps[i])
  {
    seq(|ps|, i requires 0 <= i < |ps| => NormalizePlace(ps[i]))
  }

  // ---------------------------------------------------------------------
  // The pipeline
  // ---------------------------------------------------------------------

  /** `[it for sub in nested for it in sub]`. */
  function Flatten(nested: seq<seq<RawPlace>>): seq<RawPlace>
    decreases |nested|
  {
    if nested == [] then [] else nested[0] + Flatten(nested[1..])
  }

  /** What `find_places` does once every category has returned. */
  function Aggregate(batches: seq<seq<RawPlace>>, minRating: real, maxRating: real): seq<Place> {
    NormalizeAll(FilterInRange(Dedupe(Flatten(batches)), minRating, maxRating))
  }

  /** No two normalised records share a `place_id`. */
  predicate UniquePlaceIds(ps: seq<Place>) {
    forall i, j :: 0 <= i < j < |ps| ==> ps[i].placeId != ps[j].placeId
  }

  /** The first record with a given id in the merged input, when it is in band. */
  predicate Survives(flat: seq<RawPlace>, p: RawPlace, minRating: real, maxRating: real) {
    HasId(p) && FirstWithId(flat, p.placeId.value) == Some(p) && InRange(p, minRating, maxRating)
  }

  /**
   * The aggregate holds the normalised form of exactly the records that are
   * the first of their id and rate inside the band, ordered by the position
   * at which their id first occurs in the merged input: no id twice, every
   * rating (0.0 when absent) in [minRating, maxRating].
   */
  lemma AggregateProperties(batches: seq<seq<RawPlace>>, minRating: real, maxRating: real)
    ensures var flat := Flatten(batches);
      var kept := FilterInRange(Dedupe(flat), minRating, maxRating);
      var out := Aggregate(batches, minRating, maxRating);
      IsSubsequence(kept, flat) && out == NormalizeAll(kept)
      && UniquePlaceIds(out)
      && (forall i :: 0 <= i < |out| ==> minRating <= RatingValue(out[i].rating) <= maxRating)
      && (forall i :: 0 <= i < |out| ==> out[i].placeId.Some? && out[i].placeId.value != "")
      && (forall p :: p in kept <==> p in flat && Survives(flat, p, minRating, maxRating))
      && (forall i, j :: 0 <= i < j < |out| ==> FirstIndex(flat, out[i].placeId) < FirstIndex(flat, out[j].placeId))
  {
    AggregateMembers(batches, minRating, maxRating);
    AggregateOrder(batches, minRating, maxRating);
  }

  /** The order part of `AggregateProperties`. */
  lemma AggregateOrder(batches: seq<seq<RawPlace>>, minRating: real, maxRating: real)
    ensures var flat := Flatten(batches); var out := Aggregate(batches, minRating, maxRating);
      forall i, j :: 0 <= i < j < |out| ==> FirstIndex(flat, out[i].placeId) < FirstIndex(flat, out[j].placeId)
  {
    var flat := Flatten(batches);
    var deduped := Dedupe(flat);
    DedupeOrder(flat);
    FilterKeepsOrder(deduped, flat, minRating, maxRating);
  }

  /** The membership part of `AggregateProperties`. */
  lemma AggregateMembers(batches: seq<seq<RawPlace>>, minRating: real, maxRating: real)
    ensures var flat := Flatten(batches);
      var kept := FilterInRange(Dedupe(flat), minRating, maxRating);
      var out := Aggregate(batches, minRating, maxRating);
      IsSubsequence(kept, flat) && out == NormalizeAll(kept)
      && UniquePlaceIds(out)
      && (forall i :: 0 <= i < |out| ==> minRating <= RatingValue(out[i].rating) <= maxRating)
      && (forall i :: 0 <= i < |out| ==> out[i].placeId.Some? && out[i].placeId.value != "")
      && (forall p :: p in kept <==> p in flat && Survives(flat, p, minRating, maxRating))
  {
    var flat := Flatten(batches);
    var deduped := Dedupe(flat);
    var kept := FilterInRange(deduped, minRating, maxRating);
    var out := Aggregate(batches, minRating, maxRating);
    DedupeBasics(flat);
    DedupeKeepsFirst(flat);
    FilterMembers(deduped, minRating, maxRating);
    SubsequenceTrans(kept, deduped, flat);
    SubsequenceMembers(deduped, flat);
    forall i | 0 <= i < |out| ensures minRating <= RatingValue(out[i].rating) <= maxRating
      && out[i].placeId.Some? && out[i].placeId.value != ""
    {
      assert kept[i] in kept;
      assert kept[i] in deduped;
      var k :| 0 <= k < |deduped| && deduped[k] == kept[i];
    }
    forall p | p in flat && Survives(flat, p, minRating, maxRating) ensures p in kept {
      var id := p.placeId.value;
      assert id in IdSet(flat) by {
        var k :| 0 <= k < |flat| && flat[k] == p;
      }
      var k :| 0 <= k < |deduped| && HasId(deduped[k]) && deduped[k].placeId.value == id;
      assert FirstWithId(flat, id) == Some(deduped[k]);
    }
    forall p | p in kept ensures Survives(flat, p, minRating, maxRating) {
      var k :| 0 <= k < |deduped| && deduped[k] == p;
    }
  }

  /** The outcome of one category's fetch. */
  function CategoryOutcome(provider: Provider, apiKey: Option<string>, lat: real, lon: real, radius: int,
                           placeType: string, lang: string): Outcome<seq<RawPlace>>
  {
    FetchSpec(provider, apiKey, lat, lon, radius, placeType, lang).outcome
  }

  /**
   * What `find_places` returns: if any category's fetch raised, the
   * exception escapes `gather`; otherwise the aggregate of the three
   * categories' lists in restaurant, cafe, bar order.
   */
  function FindPlacesSpec(provider: Provider, apiKey: Option<string>, lat: real, lon: real, radius: int,
                          minRating: real, maxRating: real, lang: string): Outcome<seq<Place>>
  {
    var r := CategoryOutcome(provider, apiKey, lat, lon, radius, PlaceTypes[0], lang);
    var c := CategoryOutcome(provider, apiKey, lat, lon, radius, PlaceTypes[1], lang);
    var b := CategoryOutcome(provider, apiKey, lat, lon, radius, PlaceTypes[2], lang);
    if r.Raised? || c.Raised? || b.Raised? then Raised
    else Returned(Aggregate([r.value, c.value, b.value], minRating, maxRating))
  }

  /** `find_places`: fetch every category, merge, deduplicate, filter, normalise. */
  method FindPlaces(provider: Provider, apiKey: Option<string>, lat: real, lon: real, radius: int,
                    minRating: real, maxRating: real, langCode: string) returns (r: Outcome<seq<Place>>)
    ensures r == FindPlacesSpec(provider, apiKey, lat, lon, radius, minRating, maxRating, langCode)
  {
    var nested: seq<seq<RawPlace>> := [];
    for i := 0 to |PlaceTypes|
      invariant |nested| == i
      invariant forall j :: 0 <= j < i ==>
        CategoryOutcome(provider, apiKey, lat, lon, radius, PlaceTypes[j], langCode) == Returned(nested[j])
    {
      var c := FetchPlacesByType(provider, apiKey, lat, lon, radius, PlaceTypes[i], langCode);
      if c.outcome.Raised? {
        return Raised;
      }
      nested := nested + [c.outcome.value];
    }
    assert nested == [nested[0], nested[1], nested[2]];
    var rawAll := Flatten(nested);
    var deduped := DedupeByPlaceId(rawAll);
    var filtered := FilterInRange(deduped, minRating, maxRating);
    return Returned(NormalizeAll(filtered));
  }

  /** When every category reports no results, the search finds nothing, without an error. */
  lemma AllZeroResultsIsEmpty(provider: Provider, apiKey: Option<string>, lat: real, lon: real, radius: int,
                              minRating: real, maxRating: real, lang: string)
    requires forall t, k :: var o := provider(Nearby(lat, lon, radius, t, lang, k)); o.Page? && o.status == Some("ZERO_RESULTS")
    ensures FindPlacesSpec(provider, apiKey, lat, lon, radius, minRating, maxRating, lang) == Returned([])
  {
    assert Flatten([[], [], []]) == [];
  }
}
