/** The `/api/me` route (pages/api/me.ts): GET gathers the current wallet's
    profile, asks, offers, sessions and feedback and enriches the profile with
    reputation figures; POST creates or updates the profile or creates an ask
    or an offer, after checking the fields each action requires. */
module MeHandler {
  import opened Js
  import opened Http
  import opened SkillsText
  import opened Reputation
  import opened Offers

  /** What GET returns: the wallet, the enriched profile (`null` as `None`),
      and the four listings as fetched. Asks come from a module that is not
      part of this model and stay opaque JSON values. */
  datatype MeView = MeView(wallet: string, profile: Option<map<string, JsValue>>, asks: seq<JsValue>,
                           offers: seq<Offer>, sessions: seq<Session>, feedback: seq<Feedback>)


  /** The results of the five store reads GET starts together. */
  datatype Fetches = Fetches(profile: Outcome<Option<map<string, JsValue>>>, asks: Outcome<seq<JsValue>>,
                             offers: Outcome<seq<Offer>>, sessions: Outcome<seq<Session>>,
                             feedback: Outcome<seq<Feedback>>)

  const DisplayNameRequired := "displayName is required"
  const SkillAndMessageRequired := "skill and message are required"
  const OfferFieldsRequired := "skill, message, and availabilityWindow are required"
  const InvalidAction := "Invalid action"
  /** The TypeError raised by calling `split` on a truthy non-string `skills`. */
  const SplitNotAFunction := "skills.split is not a function"

  /** The five reads, in the order they are started. */
  function MeReads(wallet: string): seq<StoreCall> {
    [GetProfileByWallet(wallet), ListAsksForWallet(wallet), ListOffersForWallet(wallet),
     ListSessionsForWallet(wallet), ListFeedbackForWallet(wallet)]
  }

  /** The error `Promise.all` rejects with, taking the reads in argument order. */
  function FirstFailure(f: Fetches): (m: Option<string>)
    ensures m.None? <==> f.profile.Ok? && f.asks.Ok? && f.offers.Ok? && f.sessions.Ok? && f.feedback.Ok?
  {
    if f.profile.Thrown? then Some(f.profile.message)
    else if f.asks.Thrown? then Some(f.asks.message)
    else if f.offers.Thrown? then Some(f.offers.message)
    else if f.sessions.Thrown? then Some(f.sessions.message)
    else if f.feedback.Thrown? then Some(f.feedback.message)
    else None
  }

  function ServerError(message: string, calls: seq<StoreCall>): Handled<Body<MeView>> {
    Handled(Reply(500, Json(ErrorBody(true, ErrorText(message)))), calls)
  }

  function BadRequest(text: string): Handled<Body<MeView>> {
    Handled(Reply(400, Json(ErrorBody(true, text))), [])
  }

  /** The GET reply: 500 with the first read's error if any read throws,
      else 200 with the profile enriched by the figures of `StatsOf`. */
  function GetReply(wallet: string, f: Fetches, now: string): (h: Handled<Body<MeView>>)
    ensures h.calls == MeReads(wallet)
    ensures h.reply.status == 200 <==> FirstFailure(f).None?
    ensures h.reply.status != 200 ==> h.reply.status == 500 && h.reply.body.Json?
    ensures h.reply.status == 200 ==>
      h.reply.body.Data? && h.reply.body.data.wallet == wallet &&
      (h.reply.body.data.profile.Some? <==> f.profile.value.Some?)
    ensures h.reply.status == 200 ==>
      h.reply.body.data.profile == EnrichedProfile(f.profile.value, StatsOf(f.sessions.value, f.feedback.value, wallet), now) &&
      h.reply.body.data.asks == f.asks.value && h.reply.body.data.offers == f.offers.value &&
      h.reply.body.data.sessions == f.sessions.value && h.reply.body.data.feedback == f.feedback.value
  {
    match FirstFailure(f)
    case Some(m) => ServerError(m, MeReads(wallet))
    case None =>
      var st := StatsOf(f.sessions.value, f.feedback.value, wallet);
      Handled(Reply(200, Data(MeView(wallet, EnrichedProfile(f.profile.value, st, now), f.asks.value,
                                     f.offers.value, f.sessions.value, f.feedback.value))),
              MeReads(wallet))
  }

  /** The GET branch, computing the figures with the counting loop. */
  method HandleGet(wallet: string, f: Fetches, now: string) returns (h: Handled<Body<MeView>>)
    ensures h == GetReply(wallet, f, now)
  {
    match FirstFailure(f)
    case Some(m) =>
      h := ServerError(m, MeReads(wallet));
    case None =>
      var st := ComputeStats(f.sessions.value, f.feedback.value, wallet);
      h := Handled(Reply(200, Data(MeView(wallet, EnrichedProfile(f.profile.value, st, now), f.asks.value,
                                          f.offers.value, f.sessions.value, f.feedback.value))),
                   MeReads(wallet));
  }

  /** `skillsArray || (skills ? skills.split(',').map(trim).filter(Boolean) : undefined)`.
      A supplied skills array passes through unchanged; otherwise a non-empty
      skills text becomes the list of its non-empty trimmed comma-separated
      parts, an empty one gives `undefined`, and a truthy non-string throws. */
  function DeriveSkillsArray(skillsArray: JsValue, skills: JsValue): (r: Outcome<JsValue>)
    ensures Truthy(skillsArray) ==> r == Ok(skillsArray)
    ensures !Truthy(skillsArray) && !Truthy(skills) ==> r == Ok(Undefined)
    ensures !Truthy(skillsArray) && Truthy(skills) && skills.Str? ==>
      r.Ok? && r.value.Arr? &&
      forall i :: 0 <= i < |r.value.items| ==>
        r.value.items[i].Str? && r.value.items[i].s != [] && Clean(r.value.items[i].s)
    ensures !Truthy(skillsArray) && Truthy(skills) && !skills.Str? ==> r == Thrown(SplitNotAFunction)
  {
    if Truthy(skillsArray) then Ok(skillsArray)
    else if !Truthy(skills) then Ok(Undefined)
    else if skills.Str? then Ok(StrArray(ParseSkills(skills.s)))
    else Thrown(SplitNotAFunction)
  }

  /** Skills written the canonical way, comma-joined, come back as the same list. */
  lemma SkillsArrayFromJoined(skillsArray: JsValue, xs: seq<string>)
    requires !Truthy(skillsArray) && xs != []
    requires forall i :: 0 <= i < |xs| ==> xs[i] != [] && Clean(xs[i])
    ensures DeriveSkillsArray(skillsArray, Str(Join(xs, ','))) == Ok(StrArray(xs))
  {
    var text := Join(xs, ',');
    JoinNonEmpty(xs, ',');
    assert Truthy(Str(text));
    ParseSkillsJoin(xs);
    assert DeriveSkillsArray(skillsArray, Str(text)) == Ok(StrArray(ParseSkills(text)));
  }

  lemma JoinNonEmpty(xs: seq<string>, d: char)
    requires xs != [] && xs[0] != []
    ensures Join(xs, d) != []
  {
    if |xs| > 1 {
      assert |Join(xs, d)| >= |xs[0]|;
    }
  }

  /** `given || undefined` as it reaches the store: a truthy value as given,
      anything falsy as `undefined`. */
  predicate KeptOrUndefined(v: JsValue, given: JsValue) {
    (Truthy(given) && v == given) || (!Truthy(given) && v == Undefined)
  }

  /** The record both profile actions pass to the store. */
  function ProfileFromBody(body: map<string, JsValue>, wallet: string): (r: Outcome<ProfileWrite>)
    ensures r.Thrown? <==> DeriveSkillsArray(Get(body, "skillsArray"), Get(body, "skills")).Thrown?
    ensures r.Ok? ==>
      r.value.wallet == wallet && r.value.displayName == Get(body, "displayName") &&
      r.value.skills == Or(Get(body, "skills"), Str("")) &&
      r.value.timezone == Or(Get(body, "timezone"), Str("")) &&
      r.value.skillsArray == DeriveSkillsArray(Get(body, "skillsArray"), Get(body, "skills")).value
    ensures r.Ok? ==>
      r.value.username == Get(body, "username") && r.value.profileImage == Get(body, "profileImage") &&
      r.value.bio == Get(body, "bio") && r.value.bioShort == Get(body, "bioShort") &&
      r.value.bioLong == Get(body, "bioLong")
    ensures r.Ok? ==>
      KeptOrUndefined(r.value.languages, Get(body, "languages")) &&
      KeptOrUndefined(r.value.contactLinks, Get(body, "contactLinks")) &&
      KeptOrUndefined(r.value.seniority, Get(body, "seniority")) &&
      KeptOrUndefined(r.value.domainsOfInterest, Get(body, "domainsOfInterest")) &&
      KeptOrUndefined(r.value.mentorRoles, Get(body, "mentorRoles")) &&
      KeptOrUndefined(r.value.learnerRoles, Get(body, "learnerRoles"))
  {
    match DeriveSkillsArray(Get(body, "skillsArray"), Get(body, "skills"))
    case Thrown(m) => Thrown(m)
    case Ok(skillsArray) =>
      Ok(ProfileWrite(
        wallet, Get(body, "displayName"), Get(body, "username"), Get(body, "profileImage"),
        Get(body, "bio"), Get(body, "bioShort"), Get(body, "bioLong"),
        Or(Get(body, "skills"), Str("")), skillsArray, Or(Get(body, "timezone"), Str("")),
        Or(Get(body, "languages"), Undefined), Or(Get(body, "contactLinks"), Undefined),
        Or(Get(body, "seniority"), Undefined), Or(Get(body, "domainsOfInterest"), Undefined),
        Or(Get(body, "mentorRoles"), Undefined), Or(Get(body, "learnerRoles"), Undefined)))
  }

  /** `expiresIn ? parseInt(expiresIn, 10) : undefined`, the raw value standing
      for its parse. */
  function Expiry(v: JsValue): JsValue {
    if Truthy(v) then v else Undefined
  }

  function OkBody(): JsValue {
    Obj(map["ok" := Bool(true)])
  }

  function OkReceiptBody(r: Receipt): JsValue {
    Obj(map["ok" := Bool(true), "key" := Str(r.key), "txHash" := Str(r.txHash)])
  }

  /** One store write and the reply that follows it: 500 with the write's
      error, else 200 with `body(receipt)`. */
  function AfterWrite(call: StoreCall, write: Outcome<Receipt>, withReceipt: bool): (h: Handled<Body<MeView>>)
    ensures h.calls == [call]
    ensures write.Thrown? ==> h == ServerError(write.message, [call])
    ensures write.Ok? ==> h.reply.status == 200
  {
    match write
    case Thrown(m) => ServerError(m, [call])
    case Ok(r) => Handled(Reply(200, Json(if withReceipt then OkReceiptBody(r) else OkBody())), [call])
  }

  predicate IsProfileAction(action: JsValue) {
    action == Str("createProfile") || action == Str("updateProfile")
  }

  predicate IsKnownAction(action: JsValue) {
    IsProfileAction(action) || action == Str("createAsk") || action == Str("createOffer")
  }

  /** Whether POST refuses the body with 400 before touching the store. */
  predicate Rejected(body: map<string, JsValue>) {
    var action := Get(body, "action");
    !IsKnownAction(action) ||
    (IsProfileAction(action) && !Truthy(Get(body, "displayName"))) ||
    (action == Str("createAsk") && (!Truthy(Get(body, "skill")) || !Truthy(Get(body, "message")))) ||
    (action == Str("createOffer") &&
      (!Truthy(Get(body, "skill")) || !Truthy(Get(body, "message")) || !Truthy(Get(body, "availabilityWindow"))))
  }

  /** The `createProfile` (`create`) or `updateProfile` branch: 400 without a
      display name, 500 when deriving the skills array throws, else one write. */
  function ProfileAction(body: map<string, JsValue>, wallet: string, write: Outcome<Receipt>, create: bool)
    : Handled<Body<MeView>>
  {
    if !Truthy(Get(body, "displayName")) then BadRequest(DisplayNameRequired)
    else
      match ProfileFromBody(body, wallet)
      case Thrown(m) => ServerError(m, [])
      case Ok(p) => AfterWrite(if create then CreateUserProfile(p) else UpdateUserProfile(p), write, false)
  }

  /** The POST branch, `write` being the outcome of the one store write it
      makes. A body that lacks a required field, or names no known action, gets
      400 and no store call; otherwise exactly one write is made and the reply
      is 200 when it succeeds and 500 when it (or the skills split) throws. */
  function HandlePost(body: map<string, JsValue>, wallet: string, write: Outcome<Receipt>): (h: Handled<Body<MeView>>)
    ensures h.reply.status == 400 <==> Rejected(body)
    ensures h.reply.status == 400 ==> h.calls == []
    ensures !IsKnownAction(Get(body, "action")) ==> h == BadRequest(InvalidAction)
    ensures h.reply.status in {200, 400, 500}
    ensures |h.calls| <= 1
    ensures h.reply.status == 200 <==> |h.calls| == 1 && write.Ok?
    ensures h.reply.body.Json? && h.reply.body.json.Obj? && "ok" in h.reply.body.json.fields
    ensures (h.reply.body.json.fields["ok"] == Bool(true)) <==> h.reply.status == 200
  {
    var action := Get(body, "action");
    if IsProfileAction(action) then ProfileAction(body, wallet, write, action == Str("createProfile"))
    else if action == Str("createAsk") then
      var skill, message := Get(body, "skill"), Get(body, "message");
      if !Truthy(skill) || !Truthy(message) then BadRequest(SkillAndMessageRequired)
      else AfterWrite(CreateAsk(AskWrite(wallet, skill, message, Expiry(Get(body, "expiresIn")))), write, true)
    else if action == Str("createOffer") then
      var skill, message, window := Get(body, "skill"), Get(body, "message"), Get(body, "availabilityWindow");
      if !Truthy(skill) || !Truthy(message) || !Truthy(window) then BadRequest(OfferFieldsRequired)
      else
        AfterWrite(CreateOffer(OfferWrite(wallet, skill, message, window, Expiry(Get(body, "expiresIn")))),
                   write, true)
    else BadRequest(InvalidAction)
  }

  /** The profile record does not depend on the action field. */
  lemma ProfileFromBodyIgnoresAction(body: map<string, JsValue>, action: JsValue, wallet: string)
    ensures ProfileFromBody(body["action" := action], wallet) == ProfileFromBody(body, wallet)
  {
    var b := body["action" := action];
    forall k | k != "action" ensures Get(b, k) == Get(body, k) {
    }
    assert "skills" != "action" by { assert "skills"[0] != "action"[0]; }
    assert Get(b, "skillsArray") == Get(body, "skillsArray") && Get(b, "skills") == Get(body, "skills");
    assert DeriveSkillsArray(Get(b, "skillsArray"), Get(b, "skills")) ==
           DeriveSkillsArray(Get(body, "skillsArray"), Get(body, "skills"));
  }

  /** Creating and updating a profile validate the same fields and derive the
      same record, skills array included; only the store call differs. */
  lemma CreateAndUpdateAgree(body: map<string, JsValue>, wallet: string, write: Outcome<Receipt>)
    ensures var c := HandlePost(body["action" := Str("createProfile")], wallet, write);
      var u := HandlePost(body["action" := Str("updateProfile")], wallet, write);
      c.reply == u.reply && |c.calls| == |u.calls| &&
      (c.calls != [] ==> c.calls[0].CreateUserProfile? && u.calls[0].UpdateUserProfile? &&
                          c.calls[0].profile == u.calls[0].profile)
  {
    var bc, bu := body["action" := Str("createProfile")], body["action" := Str("updateProfile")];
    ProfileFromBodyIgnoresAction(body, Str("createProfile"), wallet);
    ProfileFromBodyIgnoresAction(body, Str("updateProfile"), wallet);
    assert Get(bc, "displayName") == Get(bu, "displayName");
    assert HandlePost(bc, wallet, write) == ProfileAction(bc, wallet, write, true);
    assert HandlePost(bu, wallet, write) == ProfileAction(bu, wallet, write, false);
  }

  /** A valid ask: exactly one `createAsk` call with the current wallet and
      the given skill and message, and the receipt echoed with `ok: true`. */
  lemma ValidAsk(body: map<string, JsValue>, wallet: string, r: Receipt)
    requires Get(body, "action") == Str("createAsk")
    requires Truthy(Get(body, "skill")) && Truthy(Get(body, "message"))
    ensures HandlePost(body, wallet, Ok(r)) ==
      Handled(Reply(200, Json(OkReceiptBody(r))),
              [CreateAsk(AskWrite(wallet, Get(body, "skill"), Get(body, "message"), Expiry(Get(body, "expiresIn"))))])
  {
  }

  /** A valid offer: exactly one `createOffer` call with the current wallet
      and the given skill, message and availability window, and the receipt
      echoed with `ok: true`. */
  lemma ValidOffer(body: map<string, JsValue>, wallet: string, r: Receipt)
    requires Get(body, "action") == Str("createOffer")
    requires Truthy(Get(body, "skill")) && Truthy(Get(body, "message")) && Truthy(Get(body, "availabilityWindow"))
    ensures HandlePost(body, wallet, Ok(r)) ==
      Handled(Reply(200, Json(OkReceiptBody(r))),
              [CreateOffer(OfferWrite(wallet, Get(body, "skill"), Get(body, "message"),
                                      Get(body, "availabilityWindow"), Expiry(Get(body, "expiresIn"))))])
  {
  }

  /** A profile action with a display name whose skills array can be derived
      makes exactly one call, `createUserProfile` or `updateProfile` as the
      action says, with the record `ProfileFromBody` describes, and answers
      `{ ok: true }` when it succeeds. */
  lemma ValidProfile(body: map<string, JsValue>, wallet: string, write: Outcome<Receipt>)
    requires IsProfileAction(Get(body, "action")) && Truthy(Get(body, "displayName"))
    requires ProfileFromBody(body, wallet).Ok?
    ensures var p := ProfileFromBody(body, wallet).value;
      HandlePost(body, wallet, write).calls ==
        [if Get(body, "action") == Str("createProfile") then CreateUserProfile(p) else UpdateUserProfile(p)]
    ensures write.Ok? ==> HandlePost(body, wallet, write).reply == Reply(200, Json(OkBody()))
  {
  }

  /** A truthy `skills` that is not text, with no skills array, throws inside
      the handler before any write: 500 with the TypeError's message and no
      store call. */
  lemma SkillsSplitThrows(body: map<string, JsValue>, wallet: string, write: Outcome<Receipt>)
    requires IsProfileAction(Get(body, "action")) && Truthy(Get(body, "displayName"))
    requires !Truthy(Get(body, "skillsArray")) && Truthy(Get(body, "skills")) && !Get(body, "skills").Str?
    ensures HandlePost(body, wallet, write) == ServerError(SplitNotAFunction, [])
  {
  }

  /** A write that throws: an accepted body whose record can be built makes
      its one call and gets 500 with `ok: false` and the error's text. */
  lemma WriteThrows(body: map<string, JsValue>, wallet: string, m: string)
    requires !Rejected(body)
    requires IsProfileAction(Get(body, "action")) ==> ProfileFromBody(body, wallet).Ok?
    ensures var h := HandlePost(body, wallet, Thrown(m));
      |h.calls| == 1 && h.reply == Reply(500, Json(ErrorBody(true, ErrorText(m))))
  {
  }

  /** The whole route: GET, POST, and 405 without `ok` for anything else. */
  method Handle(req: Request, wallet: string, f: Fetches, write: Outcome<Receipt>, now: string)
    returns (h: Handled<Body<MeView>>)
    ensures req.verb == "GET" ==> h == GetReply(wallet, f, now)
    ensures req.verb == "POST" ==> h == HandlePost(req.body, wallet, write)
    ensures req.verb != "GET" && req.verb != "POST" ==>
      h == Handled(Reply(405, Json(ErrorBody(false, MethodNotAllowed))), [])
  {
    if req.verb == "GET" {
      h := HandleGet(wallet, f, now);
    } else if req.verb == "POST" {
      h := HandlePost(req.body, wallet, write);
    } else {
      h := Handled(Reply(405, Json(ErrorBody(false, MethodNotAllowed))), []);
    }
  }
}
