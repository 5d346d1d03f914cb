/** The `/api/profiles` route (pages/api/profiles.ts): GET lists the current
    wallet's profiles; POST creates a profile from a display name, with
    optional skills and time zone. Its error bodies carry no `ok` field. */
module ProfilesHandler {
  import opened Js
  import opened Http
  import MeHandler

  const DisplayNameRequired := "displayName is required"

  /** The record this route passes to `createUserProfile`: the wallet, the
      display name, and the skills and time zone defaulted to `''`; it passes
      no other field. */
  function ProfileRecord(body: map<string, JsValue>, wallet: string): (p: ProfileWrite)
    ensures p.wallet == wallet && p.displayName == Get(body, "displayName")
    ensures Truthy(Get(body, "skills")) ==> p.skills == Get(body, "skills")
    ensures !Truthy(Get(body, "skills")) ==> p.skills == Str("")
    ensures Truthy(Get(body, "timezone")) ==> p.timezone == Get(body, "timezone")
    ensures !Truthy(Get(body, "timezone")) ==> p.timezone == Str("")
    ensures p.username == Undefined && p.profileImage == Undefined && p.bio == Undefined &&
      p.bioShort == Undefined && p.bioLong == Undefined && p.skillsArray == Undefined
    ensures p.languages == Undefined && p.contactLinks == Undefined && p.seniority == Undefined &&
      p.domainsOfInterest == Undefined && p.mentorRoles == Undefined && p.learnerRoles == Undefined
  {
    ProfileWrite(wallet, Get(body, "displayName"), Undefined, Undefined, Undefined, Undefined, Undefined,
                 Or(Get(body, "skills"), Str("")), Undefined, Or(Get(body, "timezone"), Str("")),
                 Undefined, Undefined, Undefined, Undefined, Undefined, Undefined)
  }

  /** The route, `listed` being the outcome of the wallet's profile listing
      (records of a function that is not part of this model, kept as opaque
      JSON values) and `write` that of `createUserProfile`. */
  function ProfilesReply(req: Request, wallet: string, listed: Outcome<seq<JsValue>>, write: Outcome<Receipt>)
    : (h: Handled<Body<seq<JsValue>>>)
    ensures h.reply.status in {200, 400, 405, 500}
    ensures h.reply.status == 405 <==> req.verb != "GET" && req.verb != "POST"
    ensures h.reply.status == 400 <==> req.verb == "POST" && !Truthy(Get(req.body, "displayName"))
    ensures h.calls == [] <==> h.reply.status == 400 || h.reply.status == 405
    ensures req.verb == "GET" ==> h.calls == [ListUserProfilesForWallet(wallet)]
    ensures req.verb == "GET" && listed.Ok? ==> h.reply == Reply(200, Data(listed.value))
    ensures req.verb == "POST" && Truthy(Get(req.body, "displayName")) ==>
      h.calls == [CreateUserProfile(ProfileRecord(req.body, wallet))]
    ensures req.verb == "POST" && Truthy(Get(req.body, "displayName")) && write.Ok? ==>
      h.reply == Reply(200, Json(ReceiptBody(write.value)))
    ensures h.reply.status == 500 <==>
      (req.verb == "GET" && listed.Thrown?) || (req.verb == "POST" && Truthy(Get(req.body, "displayName")) && write.Thrown?)
    ensures req.verb == "GET" && listed.Thrown? ==>
      h.reply == Reply(500, Json(ErrorBody(false, ErrorText(listed.message))))
    ensures req.verb == "POST" && h.reply.status != 400 && write.Thrown? ==>
      h.reply == Reply(500, Json(ErrorBody(false, ErrorText(write.message))))
    ensures h.reply.status == 400 ==> h.reply == Reply(400, Json(ErrorBody(false, DisplayNameRequired)))
    ensures h.reply.status == 405 ==> h.reply == Reply(405, Json(ErrorBody(false, MethodNotAllowed)))
    ensures h.reply.body.Json? ==> h.reply.body.json.Obj? && "ok" !in h.reply.body.json.fields
  {
    if req.verb == "GET" then
      var calls := [ListUserProfilesForWallet(wallet)];
      match listed
      case Ok(profiles) => Handled(Reply(200, Data(profiles)), calls)
      case Thrown(m) => Handled(Reply(500, Json(ErrorBody(false, ErrorText(m)))), calls)
    else if req.verb == "POST" then
      if !Truthy(Get(req.body, "displayName")) then Handled(Reply(400, Json(ErrorBody(false, DisplayNameRequired))), [])
      else
        var calls := [CreateUserProfile(ProfileRecord(req.body, wallet))];
        match write
        case Ok(r) => Handled(Reply(200, Json(ReceiptBody(r))), calls)
        case Thrown(m) => Handled(Reply(500, Json(ErrorBody(false, ErrorText(m)))), calls)
    else Handled(Reply(405, Json(ErrorBody(false, MethodNotAllowed))), [])
  }

  /** This route and the `createProfile` action of `/api/me` require the same
      field and default skills and time zone the same way. */
  lemma AgreesWithMeCreateProfile(body: map<string, JsValue>, wallet: string, write: Outcome<Receipt>)
    requires Get(body, "action") == Str("createProfile")
    ensures var mine := ProfilesReply(Request("POST", body, map[]), wallet, Ok([]), write);
      var me := MeHandler.HandlePost(body, wallet, write);
      (mine.reply.status == 400 <==> me.reply.status == 400) &&
      (mine.calls != [] && me.calls != [] ==>
        mine.calls[0].profile.skills == me.calls[0].profile.skills &&
        mine.calls[0].profile.timezone == me.calls[0].profile.timezone &&
        mine.calls[0].profile.displayName == me.calls[0].profile.displayName)
  {
  }
}
