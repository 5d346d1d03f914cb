/** The `/api/offers` route (pages/api/offers.ts): GET lists the current
    wallet's offers; POST creates an offer from a skill, a message and an
    availability window. Its error bodies carry no `ok` field. */
module OffersHandler {
  import opened Js
  import opened Http
  import opened Offers
  import MeHandler

  const OfferFieldsRequired := "skill, message, and availabilityWindow are required"

  /** Whether a POST body lacks the skill, the message or the window. */
  predicate MissingOfferFields(body: map<string, JsValue>) {
    !Truthy(Get(body, "skill")) || !Truthy(Get(body, "message")) || !Truthy(Get(body, "availabilityWindow"))
  }

  /** The route, `listed` being the outcome of `listOffersForWallet` and
      `write` that of `createOffer`. */
  function OffersReply(req: Request, wallet: string, listed: Outcome<seq<Offer>>, write: Outcome<Receipt>)
    : (h: Handled<Body<seq<Offer>>>)
    ensures h.reply.status in {200, 400, 405, 500}
    ensures h.reply.status == 405 <==> req.verb != "GET" && req.verb != "POST"
    ensures h.reply.status == 400 <==> req.verb == "POST" && MissingOfferFields(req.body)
    ensures h.calls == [] <==> h.reply.status == 400 || h.reply.status == 405
    ensures req.verb == "GET" ==> h.calls == [ListOffersForWallet(wallet)]
    ensures req.verb == "GET" && listed.Ok? ==> h.reply == Reply(200, Data(listed.value))
    ensures req.verb == "POST" && !MissingOfferFields(req.body) ==>
      h.calls == [CreateOffer(OfferWrite(wallet, Get(req.body, "skill"), Get(req.body, "message"),
                                         Get(req.body, "availabilityWindow"), Undefined))]
    ensures req.verb == "POST" && !MissingOfferFields(req.body) && write.Ok? ==>
      h.reply == Reply(200, Json(ReceiptBody(write.value)))
    ensures h.reply.status == 500 <==>
      (req.verb == "GET" && listed.Thrown?) || (req.verb == "POST" && !MissingOfferFields(req.body) && write.Thrown?)
    ensures req.verb == "GET" && listed.Thrown? ==>
      h.reply == Reply(500, Json(ErrorBody(false, ErrorText(listed.message))))
    ensures req.verb == "POST" && h.reply.status != 400 && write.Thrown? ==>
      h.reply == Reply(500, Json(ErrorBody(false, ErrorText(write.message))))
    ensures h.reply.status == 400 ==> h.reply == Reply(400, Json(ErrorBody(false, OfferFieldsRequired)))
    ensures h.reply.status == 405 ==> h.reply == Reply(405, Json(ErrorBody(false, MethodNotAllowed)))
    ensures h.reply.body.Json? ==> h.reply.body.json.Obj? && "ok" !in h.reply.body.json.fields
  {
    if req.verb == "GET" then
      var calls := [ListOffersForWallet(wallet)];
      match listed
      case Ok(offers) => Handled(Reply(200, Data(offers)), calls)
      case Thrown(m) => Handled(Reply(500, Json(ErrorBody(false, ErrorText(m)))), calls)
    else if req.verb == "POST" then
      if MissingOfferFields(req.body) then Handled(Reply(400, Json(ErrorBody(false, OfferFieldsRequired))), [])
      else
        var calls := [CreateOffer(OfferWrite(wallet, Get(req.body, "skill"), Get(req.body, "message"),
                                             Get(req.body, "availabilityWindow"), Undefined))];
        match write
        case Ok(r) => Handled(Reply(200, Json(ReceiptBody(r))), calls)
        case Thrown(m) => Handled(Reply(500, Json(ErrorBody(false, ErrorText(m)))), calls)
    else Handled(Reply(405, Json(ErrorBody(false, MethodNotAllowed))), [])
  }

  /** This route and the `createOffer` action of `/api/me` accept exactly the
      same bodies and forward the same skill, message and window. */
  lemma AgreesWithMeCreateOffer(body: map<string, JsValue>, wallet: string, write: Outcome<Receipt>)
    requires Get(body, "action") == Str("createOffer")
    ensures var mine := OffersReply(Request("POST", body, map[]), wallet, Ok([]), write);
      var me := MeHandler.HandlePost(body, wallet, write);
      (mine.reply.status == 400 <==> me.reply.status == 400) &&
      (mine.calls != [] ==>
        (me.calls != [] && me.calls[0] == CreateOffer(mine.calls[0].offer.(expiresIn := me.calls[0].offer.expiresIn))))
  {
  }
}
