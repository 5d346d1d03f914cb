/** The `/api/asks` route (pages/api/asks.ts): GET lists the current wallet's
    asks; POST creates an ask from a skill and a message. Its error bodies
    carry no `ok` field. */
module AsksHandler {
  import opened Js
  import opened Http
  import MeHandler

  const SkillAndMessageRequired := "skill and message are required"

  /** Whether a POST body lacks the skill or the message. */
  predicate MissingAskFields(body: map<string, JsValue>) {
    !Truthy(Get(body, "skill")) || !Truthy(Get(body, "message"))
  }

  /** The route, `listed` being the outcome of the listing and `write` that of
      `createAsk`. Asks come from a module that is not part of this model and
      stay opaque JSON values. */
  function AsksReply(req: Request, wallet: string, listed: Outcome<seq<JsValue>>, write: Outcome<Receipt>)
    : (h: Handled<Body<seq<JsValue>>>)
    ensures h.reply.status in {200, 400, 405, 500}
    ensures h.reply.status == 405 <==> req.verb != "GET" && req.verb != "POST"
    ensures h.reply.status == 400 <==> req.verb == "POST" && MissingAskFields(req.body)
    ensures h.calls == [] <==> h.reply.status == 400 || h.reply.status == 405
    ensures req.verb == "GET" ==> h.calls == [ListAsksForWallet(wallet)]
    ensures req.verb == "GET" && listed.Ok? ==> h.reply == Reply(200, Data(listed.value))
    ensures req.verb == "POST" && !MissingAskFields(req.body) ==>
      h.calls == [CreateAsk(AskWrite(wallet, Get(req.body, "skill"), Get(req.body, "message"), Undefined))]
    ensures req.verb == "POST" && !MissingAskFields(req.body) && write.Ok? ==>
      h.reply == Reply(200, Json(ReceiptBody(write.value)))
    ensures h.reply.status == 500 <==>
      (req.verb == "GET" && listed.Thrown?) || (req.verb == "POST" && !MissingAskFields(req.body) && write.Thrown?)
    ensures req.verb == "GET" && listed.Thrown? ==>
      h.reply == Reply(500, Json(ErrorBody(false, ErrorText(listed.message))))
    ensures req.verb == "POST" && h.reply.status != 400 && write.Thrown? ==>
      h.reply == Reply(500, Json(ErrorBody(false, ErrorText(write.message))))
    ensures h.reply.status == 400 ==> h.reply == Reply(400, Json(ErrorBody(false, SkillAndMessageRequired)))
    ensures h.reply.status == 405 ==> h.reply == Reply(405, Json(ErrorBody(false, MethodNotAllowed)))
    ensures h.reply.body.Json? ==> h.reply.body.json.Obj? && "ok" !in h.reply.body.json.fields
  {
    if req.verb == "GET" then
      var calls := [ListAsksForWallet(wallet)];
      match listed
      case Ok(asks) => Handled(Reply(200, Data(asks)), calls)
      case Thrown(m) => Handled(Reply(500, Json(ErrorBody(false, ErrorText(m)))), calls)
    else if req.verb == "POST" then
      if MissingAskFields(req.body) then Handled(Reply(400, Json(ErrorBody(false, SkillAndMessageRequired))), [])
      else
        var calls := [CreateAsk(AskWrite(wallet, Get(req.body, "skill"), Get(req.body, "message"), Undefined))];
        match write
        case Ok(r) => Handled(Reply(200, Json(ReceiptBody(r))), calls)
        case Thrown(m) => Handled(Reply(500, Json(ErrorBody(false, ErrorText(m)))), calls)
    else Handled(Reply(405, Json(ErrorBody(false, MethodNotAllowed))), [])
  }

  /** This route and the `createAsk` action of `/api/me` accept exactly the
      same bodies and make the same call, except that this one never passes a
      lifetime. */
  lemma AgreesWithMeCreateAsk(body: map<string, JsValue>, wallet: string, write: Outcome<Receipt>)
    requires Get(body, "action") == Str("createAsk")
    ensures var mine := AsksReply(Request("POST", body, map[]), wallet, Ok([]), write);
      var me := MeHandler.HandlePost(body, wallet, write);
      (mine.reply.status == 400 <==> me.reply.status == 400) &&
      (mine.calls != [] ==> me.calls != [] && me.calls[0] == CreateAsk(mine.calls[0].ask.(expiresIn := me.calls[0].ask.expiresIn)))
  {
  }
}
