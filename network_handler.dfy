/** The `/api/network` route (pages/api/network.ts): GET lists asks, offers,
    profiles and sessions, narrowed by the optional `skill`, `spaceId` and
    `seniority` query parameters; any other method gets 405. */
module NetworkHandler {
  import opened Js
  import opened Http
  import opened Offers
  import opened Profiles
  import opened Reputation

  const AskOfferKeys: set<string> := {"skill", "spaceId"}
  const ProfileKeys: set<string> := {"skill", "seniority", "spaceId"}

  /** The filter over `keys` a query asks for: each key whose query value is
      truthy, with that value. */
  function Filter(query: map<string, JsValue>, keys: set<string>): (f: map<string, JsValue>)
    ensures forall k :: k in f <==> k in keys && Truthy(Get(query, k))
    ensures forall k :: k in f ==> f[k] == Get(query, k)
  {
    map k | k in keys && Truthy(Get(query, k)) :: Get(query, k)
  }

  /** `hasParams ? params : undefined`. */
  function WhenNonEmpty(params: map<string, JsValue>): (r: Option<map<string, JsValue>>)
    ensures r.None? <==> params == map[]
    ensures r.Some? ==> r.value == params
  {
    if |params| > 0 then Some(params) else None
  }

  /** The three parameter objects, each built by assigning a field for every
      truthy query value, in the order of the source. */
  method BuildParams(query: map<string, JsValue>)
    returns (askOffer: map<string, JsValue>, profile: map<string, JsValue>, session: map<string, JsValue>)
    ensures askOffer == Filter(query, AskOfferKeys)
    ensures profile == Filter(query, ProfileKeys)
    ensures session == Filter(query, AskOfferKeys)
  {
    var skill, spaceId, seniority := Get(query, "skill"), Get(query, "spaceId"), Get(query, "seniority");

    askOffer := map[];
    if Truthy(skill) { askOffer := askOffer["skill" := skill]; }
    if Truthy(spaceId) { askOffer := askOffer["spaceId" := spaceId]; }

    profile := map[];
    if Truthy(skill) { profile := profile["skill" := skill]; }
    if Truthy(seniority) { profile := profile["seniority" := seniority]; }
    if Truthy(spaceId) { profile := profile["spaceId" := spaceId]; }

    session := map[];
    if Truthy(skill) { session := session["skill" := skill]; }
    if Truthy(spaceId) { session := session["spaceId" := spaceId]; }

    assert askOffer == Filter(query, AskOfferKeys);
    assert profile == Filter(query, ProfileKeys);
  }

  /** The profile filter is the ask/offer filter plus a truthy seniority, and
      seniority never narrows asks, offers or sessions. */
  lemma ProfileFilterExtends(query: map<string, JsValue>)
    ensures "seniority" !in Filter(query, AskOfferKeys)
    ensures Truthy(Get(query, "seniority")) ==>
      Filter(query, ProfileKeys) == Filter(query, AskOfferKeys)["seniority" := Get(query, "seniority")]
    ensures !Truthy(Get(query, "seniority")) ==> Filter(query, ProfileKeys) == Filter(query, AskOfferKeys)
  {
    var a, p := Filter(query, AskOfferKeys), Filter(query, ProfileKeys);
    if Truthy(Get(query, "seniority")) {
      assert p == a["seniority" := Get(query, "seniority")];
    } else {
      assert p == a;
    }
  }

  /** The results of the four listings started together. */
  datatype Listings = Listings(asks: Outcome<seq<JsValue>>, offers: Outcome<seq<Offer>>,
                               profiles: Outcome<seq<UserProfile>>, sessions: Outcome<seq<Session>>)

  /** The 200 body. Asks and sessions come from modules that are not part of
      this model; asks stay opaque JSON values. */
  datatype NetworkView = NetworkView(asks: seq<JsValue>, offers: seq<Offer>,
                                     profiles: seq<UserProfile>, sessions: seq<Session>)

  function FirstFailure(l: Listings): (m: Option<string>)
    ensures m.None? <==> l.asks.Ok? && l.offers.Ok? && l.profiles.Ok? && l.sessions.Ok?
  {
    if l.asks.Thrown? then Some(l.asks.message)
    else if l.offers.Thrown? then Some(l.offers.message)
    else if l.profiles.Thrown? then Some(l.profiles.message)
    else if l.sessions.Thrown? then Some(l.sessions.message)
    else None
  }

  /** The four listing calls a GET makes for a query. */
  function NetworkCalls(query: map<string, JsValue>): seq<StoreCall> {
    [ListAsks(WhenNonEmpty(Filter(query, AskOfferKeys))), ListOffers(WhenNonEmpty(Filter(query, AskOfferKeys))),
     ListUserProfiles(WhenNonEmpty(Filter(query, ProfileKeys))), ListSessions(WhenNonEmpty(Filter(query, AskOfferKeys)))]
  }

  /** What the route does with a request: 405 with `ok: false` and no call
      for anything but GET; otherwise the four listings, returned as they come
      (profiles included, with no further filtering), or 500 when one throws. */
  function NetworkReply(req: Request, l: Listings): (h: Handled<Body<NetworkView>>)
    ensures req.verb != "GET" <==> h.reply.status == 405
    ensures req.verb != "GET" ==> h.reply == Reply(405, Json(ErrorBody(true, MethodNotAllowed)))
    ensures h.calls == [] <==> req.verb != "GET"
    ensures req.verb == "GET" ==> h.calls == NetworkCalls(req.query)
    ensures req.verb == "GET" && FirstFailure(l).Some? ==>
      h.reply == Reply(500, Json(ErrorBody(true, ErrorText(FirstFailure(l).value))))
    ensures req.verb == "GET" && FirstFailure(l).None? ==>
      h.reply.status == 200 && h.reply.body.Data? &&
      h.reply.body.data.asks == l.asks.value && h.reply.body.data.offers == l.offers.value &&
      h.reply.body.data.profiles == l.profiles.value && h.reply.body.data.sessions == l.sessions.value
  {
    if req.verb != "GET" then Handled(Reply(405, Json(ErrorBody(true, MethodNotAllowed))), [])
    else
      match FirstFailure(l)
      case Some(m) => Handled(Reply(500, Json(ErrorBody(true, ErrorText(m)))), NetworkCalls(req.query))
      case None =>
        Handled(Reply(200, Data(NetworkView(l.asks.value, l.offers.value, l.profiles.value, l.sessions.value))),
                NetworkCalls(req.query))
  }

  /** The route as written, building the parameters step by step. */
  method Handle(req: Request, l: Listings) returns (h: Handled<Body<NetworkView>>)
    ensures h == NetworkReply(req, l)
  {
    if req.verb != "GET" {
      return Handled(Reply(405, Json(ErrorBody(true, MethodNotAllowed))), []);
    }
    var askOffer, profile, session := BuildParams(req.query);
    var calls := [ListAsks(WhenNonEmpty(askOffer)), ListOffers(WhenNonEmpty(askOffer)),
                  ListUserProfiles(WhenNonEmpty(profile)), ListSessions(WhenNonEmpty(session))];
    match FirstFailure(l)
    case Some(m) =>
      h := Handled(Reply(500, Json(ErrorBody(true, ErrorText(m)))), calls);
    case None =>
      var filteredProfiles := l.profiles.value;
      h := Handled(Reply(200, Data(NetworkView(l.asks.value, l.offers.value, filteredProfiles, l.sessions.value))),
                   calls);
  }

  /** Without any filter in the query every listing is called with `undefined`. */
  lemma NoFilterNoParams(req: Request)
    requires forall k :: k in ProfileKeys ==> !Truthy(Get(req.query, k))
    ensures NetworkCalls(req.query) == [ListAsks(None), ListOffers(None), ListUserProfiles(None), ListSessions(None)]
  {
    assert Filter(req.query, AskOfferKeys) == map[];
    assert Filter(req.query, ProfileKeys) == map[];
  }
}
