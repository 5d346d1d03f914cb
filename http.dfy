/** What every API route shares: the request it reads, the reply it writes,
    the calls it makes into the entity store, and the catch-all error reply. */
module Http {
  import opened Js

  /** An incoming request: `req.method` (as `verb`), the parsed `req.body` and `req.query`. */
  datatype Request = Request(verb: string, body: map<string, JsValue>, query: map<string, JsValue>)

  /** What the handler writes: `res.status(status).json(body)`; `res.json(body)` alone is status 200. */
  datatype Reply<B> = Reply(status: int, body: B)

  /** A reply body: the records a read returned, or a plain JSON object. */
  datatype Body<T> = Data(data: T) | Json(json: JsValue)

  /** What a create call in the store returns. */
  datatype Receipt = Receipt(key: string, txHash: string)

  /** Arguments of `createAsk`. `expiresIn` is `undefined` when the caller passes none. */
  datatype AskWrite = AskWrite(wallet: string, skill: JsValue, message: JsValue, expiresIn: JsValue)

  /** Arguments of `createOffer`, as a route passes them. */
  datatype OfferWrite = OfferWrite(wallet: string, skill: JsValue, message: JsValue,
                                   availabilityWindow: JsValue, expiresIn: JsValue)

  /** Arguments of `createUserProfile` / `updateUserProfile`, as a route passes
      them; a field the route does not pass is `undefined`. */
  datatype ProfileWrite = ProfileWrite(
    wallet: string, displayName: JsValue, username: JsValue, profileImage: JsValue,
    bio: JsValue, bioShort: JsValue, bioLong: JsValue, skills: JsValue, skillsArray: JsValue,
    timezone: JsValue, languages: JsValue, contactLinks: JsValue, seniority: JsValue,
    domainsOfInterest: JsValue, mentorRoles: JsValue, learnerRoles: JsValue)

  /** One call a handler makes into the entity store. The filter of the
      unfiltered listing calls is `None` where the route passes `undefined`. */
  datatype StoreCall =
    | GetProfileByWallet(wallet: string)
    | ListAsksForWallet(wallet: string)
    | ListOffersForWallet(wallet: string)
    | ListUserProfilesForWallet(wallet: string)
    | ListSessionsForWallet(wallet: string)
    | ListFeedbackForWallet(wallet: string)
    | ListAsks(filter: Option<map<string, JsValue>>)
    | ListOffers(filter: Option<map<string, JsValue>>)
    | ListUserProfiles(filter: Option<map<string, JsValue>>)
    | ListSessions(filter: Option<map<string, JsValue>>)
    | CreateAsk(ask: AskWrite)
    | CreateOffer(offer: OfferWrite)
    | CreateUserProfile(profile: ProfileWrite)
    | UpdateUserProfile(profile: ProfileWrite)

  /** What one request does: the reply and the store calls it made, in order. */
  datatype Handled<B> = Handled(reply: Reply<B>, calls: seq<StoreCall>)

  const InternalServerError := "Internal server error"
  const MethodNotAllowed := "Method not allowed"

  /** The text of a caught error: `error.message || 'Internal server error'`. */
  function ErrorText(message: string): (t: string)
    ensures t != ""
    ensures message != "" ==> t == message
    ensures message == "" ==> t == InternalServerError
  {
    if message != "" then message else InternalServerError
  }

  /** `{ error }`, with `ok: false` in front when `withOk` holds. */
  function ErrorBody(withOk: bool, text: string): JsValue {
    if withOk then Obj(map["ok" := Bool(false), "error" := Str(text)])
    else Obj(map["error" := Str(text)])
  }

  /** `{ key, txHash }` of a create call's receipt. */
  function ReceiptBody(r: Receipt): JsValue {
    Obj(map["key" := Str(r.key), "txHash" := Str(r.txHash)])
  }
}
