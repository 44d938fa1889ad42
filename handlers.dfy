/**
 * The search dialog of `bot/handlers/user_handlers.py`: the FSM states,
 * the five handlers with the filters that route events to them, and
 * `process_and_send_results`.
 *
 * The per-chat FSM context (state plus stored data, kept in Redis by the
 * framework) is a class whose methods are `set_state` and `update_data`.
 * `Step` is the pure transition function the handlers implement; each
 * handler method is proved to change the context exactly as `Step` says
 * and to send exactly the messages `Respond` lists.
 */
module Handlers {
  import opened Wrappers
  import opened Text
  import opened Translator
  import opened Keyboards
  import opened GoogleMaps
  import opened Ranking

  // ---------------------------------------------------------------------
  // States, stored data, events, replies
  // ---------------------------------------------------------------------

  /** `SearchSteps` and `FeedbackState`, plus the framework's "no state". */
  datatype FsmState =
    | NoState
    | WaitingForLanguage
    | WaitingForLocation
    | WaitingForRadius
    | WaitingForManualRadius
    | WaitingForRating
    | WaitingForManualRating
    | WaitingForFeedback

  /** The keys the handlers store with `update_data`. */
  datatype SessionData = SessionData(
    langCode: Option<string>,
    latitude: Option<real>,
    longitude: Option<real>,
    radius: Option<int>)

  const EmptyData: SessionData := SessionData(None, None, None, None)

  /** A snapshot of one chat's FSM context. */
  datatype Session = Session(state: FsmState, data: SessionData)

  const InitialSession: Session := Session(NoState, EmptyData)

  /** The updates the handlers react to. */
  datatype Event =
    | StartCommand                                   // the `/start` command
    | LocationMessage(latitude: real, longitude: real)
    | OtherMessage                                   // any other message
    | Callback(payload: string)                      // an inline button press

  /** The reply markup attached to a text message. */
  datatype Markup =
    | NoMarkup
    | LanguageKeyboard
    | LocationRequest(buttonText: string)
    | RemoveKeyboard
    | RadiusKeyboard(lang: string)
    | RatingKeyboard(lang: string)

  /** A message sent to the chat. */
  datatype Outgoing = Send(text: string, markup: Markup) | SendCard(card: Card)

  /** What handling one event sent, and whether it ended by raising. */
  datatype Reply = Reply(sent: seq<Outgoing>, raised: bool)

  const Nothing: Reply := Reply([], false)

  /** The language `handle_start` always prompts in. */
  const StartLang: string := "ru"

  /** `data.get("lang_code", "ru")`. */
  function LangOf(d: SessionData): string {
    d.langCode.GetOr("ru")
  }

  // ---------------------------------------------------------------------
  // Transitions
  // ---------------------------------------------------------------------

  /**
   * The effect of one event on the FSM context, following the router's
   * filters: `/start` in any state; a `lang_` button in any state; a
   * location only while waiting for one; a `radius_` button only while
   * waiting for the radius, where a payload `int()` rejects raises before
   * anything is stored; a `rating_` button stores nothing and keeps the
   * state; every other event reaches no handler.
   */
  function Step(s: Session, e: Event): Session {
    match e
    case StartCommand => Session(WaitingForLanguage, s.data)
    case LocationMessage(lat, lon) =>
      if s.state == WaitingForLocation then
        Session(WaitingForRadius, s.data.(latitude := Some(lat), longitude := Some(lon)))
      else s
    case OtherMessage => s
    case Callback(p) =>
      if StartsWith(p, LangPrefix) then
        Session(WaitingForLocation, s.data.(langCode := Some(LanguageOf(p))))
      else if StartsWith(p, RadiusPrefix) && s.state == WaitingForRadius then
        match RadiusOf(p)
        case Some(n) => Session(WaitingForRating, s.data.(radius := Some(n)))
        case None => s
      else s
  }

  /** The session after a sequence of events. */
  function Run(s: Session, events: seq<Event>): Session
    decreases |events|
  {
    if events == [] then s else Run(Step(s, events[0]), events[1..])
  }

  /**
   * The dialog's ordering invariant: only the five states the shown
   * handlers set occur, a later field is stored only after the earlier
   * ones, and each state has the fields its successors read.
   */
  predicate Ordered(s: Session) {
    && s.state in {NoState, WaitingForLanguage, WaitingForLocation, WaitingForRadius, WaitingForRating}
    && (s.data.latitude.Some? <==> s.data.longitude.Some?)
    && (s.data.latitude.Some? ==> s.data.langCode.Some?)
    && (s.data.radius.Some? ==> s.data.latitude.Some?)
    && (s.state in {WaitingForLocation, WaitingForRadius, WaitingForRating} ==> s.data.langCode.Some?)
    && (s.state in {WaitingForRadius, WaitingForRating} ==> s.data.latitude.Some?)
    && (s.state == WaitingForRating ==> s.data.radius.Some?)
  }

  lemma InitialOrdered()
    ensures Ordered(InitialSession)
  {
  }

  /** Every event keeps the ordering invariant. */
  lemma StepOrdered(s: Session, e: Event)
    requires Ordered(s)
    ensures Ordered(Step(s, e))
  {
  }

  /** Every reachable session is ordered. */
  lemma {:induction false} RunOrdered(s: Session, events: seq<Event>)
    requires Ordered(s)
    ensures Ordered(Run(s, events))
    decreases |events|
  {
    if events != [] {
      StepOrdered(s, events[0]);
      RunOrdered(Step(s, events[0]), events[1..]);
    }
  }

  /** `/start` moves to the language prompt from any state and keeps the stored data. */
  lemma StartFromAnyState(s: Session)
    ensures Step(s, StartCommand) == Session(WaitingForLanguage, s.data)
  {
  }

  /** The text after the first `_` of a `lang_` payload is everything after the prefix. */
  lemma LanguageAfterPrefix(p: string)
    requires StartsWith(p, LangPrefix)
    ensures LanguageOf(p) == p[|LangPrefix|..]
  {
    assert LangPrefix == "lang" + ['_'];
    SplitOnceAfterPrefix(p, "lang", '_');
  }

  /**
   * A `lang_` button is accepted in every state: it stores the text after
   * the prefix as the language and moves to the location prompt.
   */
  lemma LanguageInAnyState(s: Session, p: string)
    requires StartsWith(p, LangPrefix)
    ensures Step(s, Callback(p)) == Session(WaitingForLocation, s.data.(langCode := Some(p[|LangPrefix|..])))
  {
    LanguageAfterPrefix(p);
  }

  /** A `lang_` callback whose text after the first `_` is `code` stores `code`. */
  lemma LanguageButton(s: Session, p: string, code: string)
    requires StartsWith(p, LangPrefix) && LanguageOf(p) == code
    ensures Step(s, Callback(p)) == Session(WaitingForLocation, s.data.(langCode := Some(code)))
  {
  }

  /** The three language buttons store "en", "ru" and "zh". */
  lemma LanguageButtons(s: Session)
    ensures Step(s, Callback(LanguagePayloads[0])) == Session(WaitingForLocation, s.data.(langCode := Some("en")))
    ensures Step(s, Callback(LanguagePayloads[1])) == Session(WaitingForLocation, s.data.(langCode := Some("ru")))
    ensures Step(s, Callback(LanguagePayloads[2])) == Session(WaitingForLocation, s.data.(langCode := Some("zh")))
  {
    LanguagePrefixes();
    LanguageEn();
    LanguageRu();
    LanguageZh();
    LanguageButton(s, LanguagePayloads[0], "en");
    LanguageButton(s, LanguagePayloads[1], "ru");
    LanguageButton(s, LanguagePayloads[2], "zh");
  }

  /**
   * A location changes the session exactly when it is awaited, and then
   * stores both coordinates and moves to the radius prompt.
   */
  lemma LocationOnlyWhenAwaited(s: Session, lat: real, lon: real)
    ensures Step(s, LocationMessage(lat, lon)) != s <==> s.state == WaitingForLocation
    ensures s.state == WaitingForLocation ==>
      Step(s, LocationMessage(lat, lon)) == Session(WaitingForRadius, s.data.(latitude := Some(lat), longitude := Some(lon)))
  {
  }

  /** The text after the first `_` of a `radius_` payload is everything after the prefix. */
  lemma RadiusAfterPrefix(p: string)
    requires StartsWith(p, RadiusPrefix)
    ensures RadiusOf(p) == ParseNat(p[|RadiusPrefix|..])
  {
    assert RadiusPrefix == "radius" + ['_'];
    SplitOnceAfterPrefix(p, "radius", '_');
  }

  /** In the radius state, a `radius_` callback that `int()` reads as `n` stores `n`. */
  lemma RadiusButton(s: Session, p: string, n: nat)
    requires s.state == WaitingForRadius && StartsWith(p, RadiusPrefix) && RadiusOf(p) == Some(n)
    ensures Step(s, Callback(p)) == Session(WaitingForRating, s.data.(radius := Some(n)))
  {
    assert !StartsWith(p, LangPrefix) by {
      assert p[0] == 'r';
    }
  }

  /**
   * In the radius state, `radius_<n>` stores `n` and moves to the rating
   * prompt, leaving the language and the coordinates as they were.
   */
  lemma RadiusStored(s: Session, n: nat)
    requires s.state == WaitingForRadius
    ensures var p := RadiusPrefix + NatToString(n);
      Step(s, Callback(p)) == Session(WaitingForRating, s.data.(radius := Some(n)))
  {
    var p := RadiusPrefix + NatToString(n);
    assert StartsWith(p, RadiusPrefix) && p[|RadiusPrefix|..] == NatToString(n);
    RadiusAfterPrefix(p);
    ParseNatToString(n);
    RadiusButton(s, p, n);
  }

  /** A `radius_` button outside the radius state, or one `int()` rejects, changes nothing. */
  lemma RadiusOnlyWhenAwaited(s: Session, p: string)
    requires StartsWith(p, RadiusPrefix)
    requires s.state != WaitingForRadius || RadiusOf(p).None?
    ensures Step(s, Callback(p)) == s
  {
    assert !StartsWith(p, LangPrefix) by {
      assert p[0] == 'r';
    }
  }

  /** A `rating_` button never changes the session: the handler neither sets a state nor stores data. */
  lemma RatingKeepsSession(s: Session, p: string)
    requires StartsWith(p, RatingPrefix)
    ensures Step(s, Callback(p)) == s
  {
    RatingPrefixExcludesOthers(p);
  }

  /** The manual-entry buttons reach no shown handler. */
  lemma ManualButtonsUnhandled(env: Environment, survey: Survey, tr: Translations, s: Session)
    ensures Step(s, Callback(ManualRadiusPayload)) == s && Step(s, Callback(ManualRatingPayload)) == s
    ensures Respond(env, survey, tr, s, Callback(ManualRadiusPayload)) == Nothing
    ensures Respond(env, survey, tr, s, Callback(ManualRatingPayload)) == Nothing
  {
    ManualPayloadsUnrouted();
  }

  /** `Run` over a non-empty sequence takes its first step. */
  lemma RunFirst(s: Session, e: Event, rest: seq<Event>)
    ensures Run(s, [e] + rest) == Run(Step(s, e), rest)
  {
    assert ([e] + rest)[1..] == rest;
  }

  /**
   * `/start`, a language button, a location and a radius button, from a
   * fresh chat, reach the rating prompt with every search field stored.
   */
  lemma DialogPath(lang: string, code: string, lat: real, lon: real, radius: string, n: nat)
    requires StartsWith(lang, LangPrefix) && LanguageOf(lang) == code
    requires StartsWith(radius, RadiusPrefix) && RadiusOf(radius) == Some(n)
    ensures Run(InitialSession, [StartCommand, Callback(lang), LocationMessage(lat, lon), Callback(radius)])
      == Session(WaitingForRating, SessionData(Some(code), Some(lat), Some(lon), Some(n)))
  {
    var s1 := Session(WaitingForLanguage, EmptyData);
    var s2 := Session(WaitingForLocation, EmptyData.(langCode := Some(code)));
    var s3 := Session(WaitingForRadius, s2.data.(latitude := Some(lat), longitude := Some(lon)));
    var s4 := Session(WaitingForRating, s3.data.(radius := Some(n)));
    assert Run(s3, [Callback(radius)]) == s4 by {
      RadiusButton(s3, radius, n);
      RunFirst(s3, Callback(radius), []);
      assert [Callback(radius)] + [] == [Callback(radius)];
    }
    assert Run(s2, [LocationMessage(lat, lon), Callback(radius)]) == s4 by {
      RunFirst(s2, LocationMessage(lat, lon), [Callback(radius)]);
      assert [LocationMessage(lat, lon)] + [Callback(radius)] == [LocationMessage(lat, lon), Callback(radius)];
    }
    assert Run(s1, [Callback(lang), LocationMessage(lat, lon), Callback(radius)]) == s4 by {
      LanguageButton(s1, lang, code);
      RunFirst(s1, Callback(lang), [LocationMessage(lat, lon), Callback(radius)]);
      assert [Callback(lang)] + [LocationMessage(lat, lon), Callback(radius)]
        == [Callback(lang), LocationMessage(lat, lon), Callback(radius)];
    }
    RunFirst(InitialSession, StartCommand, [Callback(lang), LocationMessage(lat, lon), Callback(radius)]);
    assert [StartCommand] + [Callback(lang), LocationMessage(lat, lon), Callback(radius)]
      == [StartCommand, Callback(lang), LocationMessage(lat, lon), Callback(radius)];
  }

  /** Pressing "en" and the 100 m preset gives the rating prompt with language "en" and radius 100. */
  lemma ButtonPath(lat: real, lon: real)
    ensures Run(InitialSession, [StartCommand, Callback(LanguagePayloads[0]), LocationMessage(lat, lon), Callback(RadiusPayloads[1])])
      == Session(WaitingForRating, SessionData(Some("en"), Some(lat), Some(lon), Some(100)))
  {
    LanguagePrefixes();
    LanguageEn();
    RadiusPrefixes();
    Radius100();
    DialogPath(LanguagePayloads[0], "en", lat, lon, RadiusPayloads[1], 100);
  }

  // ---------------------------------------------------------------------
  // The search
  // ---------------------------------------------------------------------

  /** The configured API key and the provider behind it. */
  datatype Environment = Environment(provider: Provider, apiKey: Option<string>)

  /** `float(user_data["latitude"])`, `float(user_data["longitude"])`, `int(user_data["radius"])`; `None` on a `KeyError`. */
  function SearchParams(d: SessionData): Option<(real, real, int)> {
    if d.latitude.Some? && d.longitude.Some? && d.radius.Some? then
      Some((d.latitude.value, d.longitude.value, d.radius.value))
    else None
  }

  /** The single message for an empty result. */
  function NoResultsText(tr: Translations, lang: string): string {
    GetString(tr, "no_results", lang) + "\n" + GetString(tr, "try_another_range", lang)
  }

  /** One card message per place, in order. */
  function CardMessages(survey: Survey, lat: real, lon: real, ps: seq<Place>): (m: seq<Outgoing>)
    ensures |m| == |ps| && forall i :: 0 <= i < |ps| ==> m[i] == SendCard(FormatPlaceCard(survey, lat, lon, ps[i]))
  {
    seq(|ps|, i requires 0 <= i < |ps| => SendCard(FormatPlaceCard(survey, lat, lon, ps[i])))
  }

  /**
   * What `process_and_send_results` sends: nothing if a stored parameter
   * is missing, the search raises or a rating breaks the sort; one
   * "no results" message when nothing is left; otherwise one card per
   * place of the top three, in rank order.
   */
  function SearchSpec(env: Environment, survey: Survey, tr: Translations, d: SessionData, lang: string,
                      minRating: real, maxRating: real): Reply
  {
    match SearchParams(d)
    case None => Reply([], true)
    case Some((lat, lon, radius)) =>
      match FindPlacesSpec(env.provider, env.apiKey, lat, lon, radius, minRating, maxRating, lang)
      case Raised => Reply([], true)
      case Returned(found) =>
        match RankTop(found)
        case Raised => Reply([], true)
        case Returned(top) =>
          if top == [] then Reply([Send(NoResultsText(tr, lang), NoMarkup)], false)
          else Reply(CardMessages(survey, lat, lon, PlacesOf(top)), false)
  }

  /** The loop that sends one card per top place, in rank order. */
  method SendCards(survey: Survey, lat: real, lon: real, top: seq<Ranked>) returns (sent: seq<Outgoing>)
    ensures sent == CardMessages(survey, lat, lon, PlacesOf(top))
  {
    sent := [];
    for i := 0 to |top|
      invariant |sent| == i
      invariant forall j :: 0 <= j < i ==> sent[j] == SendCard(FormatPlaceCard(survey, lat, lon, top[j].place))
    {
      var text := FormatPlaceCard(survey, lat, lon, top[i].place);
      sent := sent + [SendCard(text)];
    }
  }

  /**
   * The card loop with the card as written: it sends cards until the first
   * place without a rating count, whose card raises and ends the loop.
   */
  function CardsAsWritten(survey: Survey, lat: real, lon: real, ps: seq<Place>): Reply
    decreases |ps|
  {
    if ps == [] then Reply([], false)
    else
      match FormatPlaceCardAsWritten(survey, lat, lon, ps[0])
      case Raised => Reply([], true)
      case Returned(card) =>
        var rest := CardsAsWritten(survey, lat, lon, ps[1..]);
        Reply([SendCard(card)] + rest.sent, rest.raised)
  }

  /** The corrected cards of a non-empty list: the first place's card, then the rest's. */
  lemma CardMessagesCons(survey: Survey, lat: real, lon: real, ps: seq<Place>)
    requires ps != []
    ensures CardMessages(survey, lat, lon, ps)
      == [SendCard(FormatPlaceCard(survey, lat, lon, ps[0]))] + CardMessages(survey, lat, lon, ps[1..])
  {
  }

  /** The as-written loop past a place that has a rating count: its corrected card, then the rest. */
  lemma CardsAsWrittenCons(survey: Survey, lat: real, lon: real, ps: seq<Place>)
    requires ps != [] && ps[0].ratingsTotal.Some?
    ensures var rest := CardsAsWritten(survey, lat, lon, ps[1..]);
      CardsAsWritten(survey, lat, lon, ps) == Reply([SendCard(FormatPlaceCard(survey, lat, lon, ps[0]))] + rest.sent, rest.raised)
  {
    AsWrittenCardFailsWithoutCount(survey, lat, lon, ps[0]);
  }

  /**
   * As written, the loop raises exactly when some place lacks a rating
   * count; what it sent by then is the corrected cards of the places
   * before the first such place; and without such a place it sends
   * exactly the corrected cards.
   */
  lemma {:induction false} CardsAsWrittenStopAtMissingCount(survey: Survey, lat: real, lon: real, ps: seq<Place>)
    ensures var r := CardsAsWritten(survey, lat, lon, ps);
      && (r.raised <==> exists i :: 0 <= i < |ps| && ps[i].ratingsTotal.None?)
      && |r.sent| <= |ps| && r.sent == CardMessages(survey, lat, lon, ps)[..|r.sent|]
      && (forall i :: 0 <= i < |r.sent| ==> ps[i].ratingsTotal.Some?)
      && (r.raised ==> ps[|r.sent|].ratingsTotal.None?)
      && (!r.raised ==> r.sent == CardMessages(survey, lat, lon, ps))
    decreases |ps|
  {
    if ps != [] {
      if ps[0].ratingsTotal.None? {
        AsWrittenCardFailsWithoutCount(survey, lat, lon, ps[0]);
      } else {
        CardMessagesCons(survey, lat, lon, ps);
        CardsAsWrittenCons(survey, lat, lon, ps);
        CardsAsWrittenStopAtMissingCount(survey, lat, lon, ps[1..]);
        CardsStep(ps, CardMessages(survey, lat, lon, ps), CardMessages(survey, lat, lon, ps[1..]),
                  CardsAsWritten(survey, lat, lon, ps), CardsAsWritten(survey, lat, lon, ps[1..]));
      }
    }
  }

  /** The inductive step of `CardsAsWrittenStopAtMissingCount`, over the lists alone. */
  lemma CardsStep(ps: seq<Place>, all: seq<Outgoing>, tail: seq<Outgoing>, r: Reply, rest: Reply)
    requires ps != [] && ps[0].ratingsTotal.Some? && |all| == |ps| && all == [all[0]] + tail
    requires r == Reply([all[0]] + rest.sent, rest.raised)
    requires rest.raised <==> exists i :: 0 <= i < |ps[1..]| && ps[1..][i].ratingsTotal.None?
    requires |rest.sent| <= |ps[1..]| && rest.sent == tail[..|rest.sent|]
    requires forall i :: 0 <= i < |rest.sent| ==> ps[1..][i].ratingsTotal.Some?
    requires rest.raised ==> ps[1..][|rest.sent|].ratingsTotal.None?
    requires !rest.raised ==> rest.sent == tail
    ensures r.raised <==> exists i :: 0 <= i < |ps| && ps[i].ratingsTotal.None?
    ensures |r.sent| <= |ps| && r.sent == all[..|r.sent|]
    ensures forall i :: 0 <= i < |r.sent| ==> ps[i].ratingsTotal.Some?
    ensures r.raised ==> ps[|r.sent|].ratingsTotal.None?
    ensures !r.raised ==> r.sent == all
  {
    assert all[..|r.sent|] == [all[0]] + tail[..|rest.sent|];
    forall i | 0 <= i < |r.sent|
      ensures ps[i].ratingsTotal.Some?
    {
      if i > 0 { assert ps[i] == ps[1..][i - 1]; }
    }
    if r.raised {
      assert ps[|r.sent|] == ps[1..][|rest.sent|];
      var i :| 0 <= i < |ps[1..]| && ps[1..][i].ratingsTotal.None?;
      assert ps[i + 1].ratingsTotal.None?;
    } else {
      forall i | 0 <= i < |ps|
        ensures ps[i].ratingsTotal.Some?
      {
        if i > 0 { assert ps[i] == ps[1..][i - 1]; }
      }
    }
  }

  /** `SearchSpec` with the card loop as written, which stops at the first place without a rating count. */
  function SearchAsWritten(env: Environment, survey: Survey, tr: Translations, d: SessionData, lang: string,
                           minRating: real, maxRating: real): Reply
  {
    match SearchParams(d)
    case None => Reply([], true)
    case Some((lat, lon, radius)) =>
      match FindPlacesSpec(env.provider, env.apiKey, lat, lon, radius, minRating, maxRating, lang)
      case Raised => Reply([], true)
      case Returned(found) =>
        match RankTop(found)
        case Raised => Reply([], true)
        case Returned(top) =>
          if top == [] then Reply([Send(NoResultsText(tr, lang), NoMarkup)], false)
          else CardsAsWritten(survey, lat, lon, PlacesOf(top))
  }

  /**
   * The search as written sends a prefix of what the corrected search
   * sends. The two agree whenever the written one does not raise, and
   * whenever the corrected one raises; when only the written one raises,
   * it has sent strictly fewer cards.
   */
  lemma AsWrittenSearchIsPrefix(env: Environment, survey: Survey, tr: Translations, d: SessionData, lang: string,
                                minRating: real, maxRating: real)
    ensures var w := SearchAsWritten(env, survey, tr, d, lang, minRating, maxRating);
      var c := SearchSpec(env, survey, tr, d, lang, minRating, maxRating);
      && |w.sent| <= |c.sent| && w.sent == c.sent[..|w.sent|]
      && (!w.raised ==> w == c)
      && (c.raised ==> w == c)
      && (w.raised && !c.raised ==> |w.sent| < |c.sent|)
  {
    if SearchParams(d).Some? {
      var (lat, lon, radius) := SearchParams(d).value;
      var f := FindPlacesSpec(env.provider, env.apiKey, lat, lon, radius, minRating, maxRating, lang);
      if f.Returned? && RankTop(f.value).Returned? {
        var top := RankTop(f.value).value;
        CardsAsWrittenStopAtMissingCount(survey, lat, lon, PlacesOf(top));
      }
    }
  }

  /** `process_and_send_results`, reading the stored parameters from the context. */
  method ProcessAndSendResults(ctx: FsmContext, env: Environment, survey: Survey, tr: Translations,
                               minRating: real, maxRating: real, langCode: string) returns (r: Reply)
    ensures r == SearchSpec(env, survey, tr, ctx.data, langCode, minRating, maxRating)
  {
    var userData := ctx.data;
    if userData.latitude.None? || userData.longitude.None? || userData.radius.None? {
      return Reply([], true);
    }
    var lat, lon, radius := userData.latitude.value, userData.longitude.value, userData.radius.value;
    assert SearchParams(userData) == Some((lat, lon, radius));
    var allCandidates := FindPlaces(env.provider, env.apiKey, lat, lon, radius, minRating, maxRating, langCode);
    if allCandidates.Raised? {
      return Reply([], true);
    }
    var keyed := Decorate(allCandidates.value);
    if keyed.None? {
      assert RankTop(allCandidates.value) == Raised;
      return Reply([], true);
    }
    var sorted := SortByRank(keyed.value);
    var top := Top(sorted);
    assert RankTop(allCandidates.value) == Returned(top);
    if |top| == 0 {
      return Reply([Send(NoResultsText(tr, langCode), NoMarkup)], false);
    }
    var sent := SendCards(survey, lat, lon, top);
    return Reply(sent, false);
  }

  /**
   * The outcome of a search: it raises exactly when a stored parameter is
   * missing, the search raises, or a rating breaks the sort, and then
   * sends nothing. Otherwise an empty search sends exactly the one
   * "no results" message, and a search with `n` places sends `min(3, n)`
   * cards of places it found.
   */
  lemma SearchDelivery(env: Environment, survey: Survey, tr: Translations, d: SessionData, lang: string,
                       minRating: real, maxRating: real)
    ensures var r := SearchSpec(env, survey, tr, d, lang, minRating, maxRating);
      (r.raised <==>
        (|| SearchParams(d).None?
         || FindPlacesSpec(env.provider, env.apiKey, d.latitude.value, d.longitude.value, d.radius.value, minRating, maxRating, lang).Raised?
         || RankTop(FindPlacesSpec(env.provider, env.apiKey, d.latitude.value, d.longitude.value, d.radius.value, minRating, maxRating, lang).value).Raised?))
      && (r.raised ==> r.sent == [])
      && (!r.raised ==>
            var found := FindPlacesSpec(env.provider, env.apiKey, d.latitude.value, d.longitude.value, d.radius.value, minRating, maxRating, lang).value;
            (found == [] ==> r.sent == [Send(NoResultsText(tr, lang), NoMarkup)])
            && (found != [] ==>
                  (&& |r.sent| == (if |found| < TopCount then |found| else TopCount)
                   && forall i :: 0 <= i < |r.sent| ==> r.sent[i].SendCard?)))
  {
    if SearchParams(d).Some? {
      var (lat, lon, radius) := SearchParams(d).value;
      var f := FindPlacesSpec(env.provider, env.apiKey, lat, lon, radius, minRating, maxRating, lang);
      if f.Returned? {
        match Decorate(f.value)
        case None =>
        case Some(rs) =>
          TopIsBest(rs);
      }
    }
  }

  /** With a blank API key no category is queried and the user gets the "no results" message. */
  lemma BlankKeyGivesNoResults(env: Environment, survey: Survey, tr: Translations, d: SessionData, lang: string,
                               minRating: real, maxRating: real)
    requires KeyIsBlank(env.apiKey) && SearchParams(d).Some?
    ensures SearchSpec(env, survey, tr, d, lang, minRating, maxRating) == Reply([Send(NoResultsText(tr, lang), NoMarkup)], false)
  {
    assert Flatten([[], [], []]) == [];
  }

  /** When every category reports no results, the user gets the "no results" message, not an error. */
  lemma ZeroResultsGivesNoResults(env: Environment, survey: Survey, tr: Translations, d: SessionData, lang: string,
                                  minRating: real, maxRating: real)
    requires SearchParams(d).Some?
    requires forall t, k ::
      var o := env.provider(Nearby(d.latitude.value, d.longitude.value, d.radius.value, t, lang, k));
      o.Page? && o.status == Some("ZERO_RESULTS")
    ensures SearchSpec(env, survey, tr, d, lang, minRating, maxRating) == Reply([Send(NoResultsText(tr, lang), NoMarkup)], false)
  {
    AllZeroResultsIsEmpty(env.provider, env.apiKey, d.latitude.value, d.longitude.value, d.radius.value, minRating, maxRating, lang);
  }

  /** In the rating state of an ordered session every search parameter is stored, so the reads cannot raise `KeyError`. */
  lemma RatingStateHasParameters(s: Session)
    requires Ordered(s) && s.state == WaitingForRating
    ensures SearchParams(s.data).Some?
  {
  }

  // ---------------------------------------------------------------------
  // Replies
  // ---------------------------------------------------------------------

  /**
   * What `get_rating_from_button` sends: nothing when the payload does not
   * unpack into three parts or a bound is not a number; otherwise the
   * "searching" notice followed by what the search sends.
   */
  function RatingReply(env: Environment, survey: Survey, tr: Translations, d: SessionData, payload: string): Reply {
    match RatingBandOf(payload)
    case None => Reply([], true)
    case Some((lo, hi)) =>
      var r := SearchSpec(env, survey, tr, d, LangOf(d), lo, hi);
      Reply([Send(GetString(tr, "searching", LangOf(d)), NoMarkup)] + r.sent, r.raised)
  }

  /** The messages each handler sends, for the event the router gives it. */
  function Respond(env: Environment, survey: Survey, tr: Translations, s: Session, e: Event): Reply {
    match e
    case StartCommand => Reply([Send(GetString(tr, "select_language", StartLang), LanguageKeyboard)], false)
    case LocationMessage(_, _) =>
      if s.state == WaitingForLocation then
        var lang := LangOf(s.data);
        Reply([Send(GetString(tr, "select_radius", lang), RemoveKeyboard), Send(GetString(tr, "thanks", lang), RadiusKeyboard(lang))], false)
      else Nothing
    case OtherMessage => Nothing
    case Callback(p) =>
      if StartsWith(p, LangPrefix) then
        var lang := LanguageOf(p);
        Reply([Send(GetString(tr, "request_location", lang), LocationRequest(GetString(tr, "send_location_btn", lang)))], false)
      else if StartsWith(p, RadiusPrefix) && s.state == WaitingForRadius then
        if RadiusOf(p).None? then Reply([], true)
        else Reply([Send(GetString(tr, "select_rating_range", LangOf(s.data)), RatingKeyboard(LangOf(s.data)))], false)
      else if StartsWith(p, RatingPrefix) && s.state == WaitingForRating then
        RatingReply(env, survey, tr, s.data, p)
      else Nothing
  }

  /** Any `rating_` callback in the rating state goes to `get_rating_from_button`. */
  lemma RatingCallbackRoutes(env: Environment, survey: Survey, tr: Translations, s: Session, p: string)
    requires StartsWith(p, RatingPrefix) && s.state == WaitingForRating
    ensures Respond(env, survey, tr, s, Callback(p)) == RatingReply(env, survey, tr, s.data, p)
  {
    RatingPrefixExcludesOthers(p);
  }

  /** A `rating_` payload passes neither the `lang_` nor the `radius_` filter. */
  lemma RatingPrefixExcludesOthers(p: string)
    requires StartsWith(p, RatingPrefix)
    ensures !StartsWith(p, LangPrefix) && !StartsWith(p, RadiusPrefix)
  {
    assert p[0] == 'r' && p[2] == 't';
  }

  /** A `rating_` callback in the rating state whose bounds parse announces the search and runs it over that band. */
  lemma RatingButton(env: Environment, survey: Survey, tr: Translations, s: Session, p: string, lo: real, hi: real)
    requires StartsWith(p, RatingPrefix) && s.state == WaitingForRating && RatingBandOf(p) == Some((lo, hi))
    ensures var search := SearchSpec(env, survey, tr, s.data, LangOf(s.data), lo, hi);
      Respond(env, survey, tr, s, Callback(p))
        == Reply([Send(GetString(tr, "searching", LangOf(s.data)), NoMarkup)] + search.sent, search.raised)
  {
    RatingCallbackRoutes(env, survey, tr, s, p);
  }

  /**
   * Each preset rating button in the rating state of an ordered session
   * announces the search and then runs it, without a `KeyError`, over its
   * own band.
   */
  lemma RatingButtonSearches(env: Environment, survey: Survey, tr: Translations, s: Session, i: nat)
    requires Ordered(s) && s.state == WaitingForRating && i < |RatingPayloads|
    ensures var band := [(4.0, 4.5), (4.41, 4.7), (4.71, 5.0)][i];
      var search := SearchSpec(env, survey, tr, s.data, LangOf(s.data), band.0, band.1);
      && SearchParams(s.data).Some?
      && Respond(env, survey, tr, s, Callback(RatingPayloads[i]))
           == Reply([Send(GetString(tr, "searching", LangOf(s.data)), NoMarkup)] + search.sent, search.raised)
  {
    RatingPrefixes();
    if i == 0 {
      RatingBand0();
      RatingButton(env, survey, tr, s, RatingPayloads[0], 4.0, 4.5);
    } else if i == 1 {
      RatingBand1();
      RatingButton(env, survey, tr, s, RatingPayloads[1], 4.41, 4.7);
    } else {
      RatingBand2();
      RatingButton(env, survey, tr, s, RatingPayloads[2], 4.71, 5.0);
    }
  }

  /** A `rating_` callback outside the rating state reaches no handler: nothing is sent and the session stays as it is. */
  lemma RatingOnlyWhenAwaited(env: Environment, survey: Survey, tr: Translations, s: Session, p: string)
    requires StartsWith(p, RatingPrefix) && s.state != WaitingForRating
    ensures Respond(env, survey, tr, s, Callback(p)) == Nothing
    ensures Step(s, Callback(p)) == s
  {
    RatingPrefixExcludesOthers(p);
  }

  /** A rating payload that does not split into exactly three parts sends nothing and raises. */
  lemma MalformedRatingRaises(env: Environment, survey: Survey, tr: Translations, s: Session, p: string)
    requires StartsWith(p, RatingPrefix) && s.state == WaitingForRating && |Split(p, '_')| != 3
    ensures Respond(env, survey, tr, s, Callback(p)) == Reply([], true)
  {
    RatingCallbackRoutes(env, survey, tr, s, p);
  }

  // ---------------------------------------------------------------------
  // The FSM context and the handlers
  // ---------------------------------------------------------------------

  /** One chat's `FSMContext`: its state and its stored data. */
  class FsmContext {
    var state: FsmState
    var data: SessionData

    /** A chat the bot has not seen: no state, no data. */
    constructor ()
      ensures state == NoState && data == EmptyData
    {
      state := NoState;
      data := EmptyData;
    }

    function Snapshot(): Session
      reads this
    {
      Session(state, data)
    }

    /** `state.set_state(s)`. */
    method SetState(s: FsmState)
      modifies this
      ensures state == s && data == old(data)
    {
      state := s;
    }

    /** `state.update_data(lang_code=code)`. */
    method UpdateLanguage(code: string)
      modifies this
      ensures data == old(data).(langCode := Some(code)) && state == old(state)
    {
      data := data.(langCode := Some(code));
    }

    /** `state.update_data(latitude=lat, longitude=lon)`. */
    method UpdateLocation(lat: real, lon: real)
      modifies this
      ensures data == old(data).(latitude := Some(lat), longitude := Some(lon)) && state == old(state)
    {
      data := data.(latitude := Some(lat), longitude := Some(lon));
    }

    /** `state.update_data(radius=r)`. */
    method UpdateRadius(r: int)
      modifies this
      ensures data == old(data).(radius := Some(r)) && state == old(state)
    {
      data := data.(radius := Some(r));
    }
  }

  /** `handle_start`. */
  method HandleStart(ctx: FsmContext, env: Environment, survey: Survey, tr: Translations) returns (r: Reply)
    modifies ctx
    ensures ctx.Snapshot() == Step(old(ctx.Snapshot()), StartCommand)
    ensures r == Respond(env, survey, tr, old(ctx.Snapshot()), StartCommand)
  {
    ctx.SetState(WaitingForLanguage);
    r := Reply([Send(GetString(tr, "select_language", StartLang), LanguageKeyboard)], false);
  }

  /** `set_language`, reached by any callback starting with `lang_`. */
  method SetLanguage(ctx: FsmContext, env: Environment, survey: Survey, tr: Translations, payload: string) returns (r: Reply)
    requires StartsWith(payload, LangPrefix)
    modifies ctx
    ensures ctx.Snapshot() == Step(old(ctx.Snapshot()), Callback(payload))
    ensures r == Respond(env, survey, tr, old(ctx.Snapshot()), Callback(payload))
  {
    var langCode := LanguageOf(payload);
    ctx.UpdateLanguage(langCode);
    var kb := LocationRequest(GetString(tr, "send_location_btn", langCode));
    r := Reply([Send(GetString(tr, "request_location", langCode), kb)], false);
    ctx.SetState(WaitingForLocation);
  }

  /** `got_location`, reached by a location message while waiting for one. */
  method GotLocation(ctx: FsmContext, env: Environment, survey: Survey, tr: Translations, lat: real, lon: real) returns (r: Reply)
    requires ctx.state == WaitingForLocation
    modifies ctx
    ensures ctx.Snapshot() == Step(old(ctx.Snapshot()), LocationMessage(lat, lon))
    ensures r == Respond(env, survey, tr, old(ctx.Snapshot()), LocationMessage(lat, lon))
  {
    var langCode := LangOf(ctx.data);
    ctx.UpdateLocation(lat, lon);
    r := Reply([Send(GetString(tr, "select_radius", langCode), RemoveKeyboard),
                Send(GetString(tr, "thanks", langCode), RadiusKeyboard(langCode))], false);
    ctx.SetState(WaitingForRadius);
  }

  /** `set_radius`, reached by a `radius_` callback while waiting for the radius. */
  method SetRadius(ctx: FsmContext, env: Environment, survey: Survey, tr: Translations, payload: string) returns (r: Reply)
    requires StartsWith(payload, RadiusPrefix) && !StartsWith(payload, LangPrefix) && ctx.state == WaitingForRadius
    modifies ctx
    ensures ctx.Snapshot() == Step(old(ctx.Snapshot()), Callback(payload))
    ensures r == Respond(env, survey, tr, old(ctx.Snapshot()), Callback(payload))
  {
    var langCode := LangOf(ctx.data);
    var radius := RadiusOf(payload);
    if radius.None? {
      // `int()` raises `ValueError` before anything is stored.
      return Reply([], true);
    }
    ctx.UpdateRadius(radius.value);
    r := Reply([Send(GetString(tr, "select_rating_range", langCode), RatingKeyboard(langCode))], false);
    ctx.SetState(WaitingForRating);
  }

  /** `get_rating_from_button`, reached by a `rating_` callback while waiting for the rating. */
  method GetRatingFromButton(ctx: FsmContext, env: Environment, survey: Survey, tr: Translations, payload: string) returns (r: Reply)
    requires StartsWith(payload, RatingPrefix) && !StartsWith(payload, LangPrefix) && !StartsWith(payload, RadiusPrefix)
    requires ctx.state == WaitingForRating
    modifies ctx
    ensures ctx.Snapshot() == Step(old(ctx.Snapshot()), Callback(payload))
    ensures r == Respond(env, survey, tr, old(ctx.Snapshot()), Callback(payload))
  {
    var langCode := LangOf(ctx.data);
    var band := RatingBandOf(payload);
    if band.None? {
      // The unpacking or a `float()` conversion raises `ValueError`.
      return Reply([], true);
    }
    var (minRating, maxRating) := band.value;
    var notice := Send(GetString(tr, "searching", langCode), NoMarkup);
    var result := ProcessAndSendResults(ctx, env, survey, tr, minRating, maxRating, langCode);
    r := Reply([notice] + result.sent, result.raised);
  }

  /** The router: hands each event to the first handler whose filters accept it. */
  method Dispatch(ctx: FsmContext, env: Environment, survey: Survey, tr: Translations, e: Event) returns (r: Reply)
    modifies ctx
    ensures ctx.Snapshot() == Step(old(ctx.Snapshot()), e)
    ensures r == Respond(env, survey, tr, old(ctx.Snapshot()), e)
  {
    match e {
      case StartCommand =>
        r := HandleStart(ctx, env, survey, tr);
      case LocationMessage(lat, lon) =>
        if ctx.state == WaitingForLocation {
          r := GotLocation(ctx, env, survey, tr, lat, lon);
        } else {
          r := Nothing;
        }
      case OtherMessage =>
        r := Nothing;
      case Callback(p) =>
        if StartsWith(p, LangPrefix) {
          r := SetLanguage(ctx, env, survey, tr, p);
        } else if StartsWith(p, RadiusPrefix) && ctx.state == WaitingForRadius {
          r := SetRadius(ctx, env, survey, tr, p);
        } else if StartsWith(p, RatingPrefix) && ctx.state == WaitingForRating {
          r := GetRatingFromButton(ctx, env, survey, tr, p);
        } else {
          r := Nothing;
        }
    }
  }
}
