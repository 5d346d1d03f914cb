/** Offers in the entity store (src/arkiv/offers.ts): how `createOffer` lays
    an offer out as attributes plus a JSON payload, and how the list functions
    map a fetched entity back to an `Offer`. */
module Offers {
  import opened Js
  import opened Entity

  const OfferType := "offer"
  const DefaultSpaceId := "local-dev"
  const ActiveStatus := "active"
  /** Two hours, in seconds. */
  const OfferLifetime := 7200

  /** What a caller passes to `createOffer`. The function destructures only
      the first four fields; `expiresIn` stands for anything else the caller
      adds to the argument object. */
  datatype OfferInput = OfferInput(wallet: string, skill: string, message: string,
                                   availabilityWindow: string, expiresIn: Option<int>)

  /** An offer as the list functions return it. The string fields come from
      attributes; `message`, `availabilityWindow` and `txHash` come from the
      payload and are whatever JSON value it holds there. */
  datatype Offer = Offer(key: string, wallet: string, skill: string, spaceId: string,
                         createdAt: string, status: string,
                         message: JsValue, availabilityWindow: JsValue, txHash: JsValue)

  function OfferAttributes(input: OfferInput, createdAt: string): seq<Attribute> {
    [Attribute("type", OfferType), Attribute("wallet", input.wallet), Attribute("skill", input.skill),
     Attribute("spaceId", DefaultSpaceId), Attribute("createdAt", createdAt), Attribute("status", ActiveStatus)]
  }

  lemma OfferAttributesDistinct(input: OfferInput, createdAt: string)
    ensures DistinctKeys(OfferAttributes(input, createdAt))
  {
    var a := OfferAttributes(input, createdAt);
    assert a[0].key[0] == 't' && a[1].key[0] == 'w' && a[2].key[1] == 'k' && a[3].key[1] == 'p';
    assert a[4].key[0] == 'c' && a[5].key[1] == 't' && a[2].key[0] == 's' && a[3].key[0] == 's';
    assert a[5].key[0] == 's';
  }

  /** The draft `createOffer` hands to the store, `now` being the ISO text of
      the clock read. The lifetime is always two hours whatever the caller
      passed, and the payload holds exactly the message and the availability
      window: wallet, skill and creation time travel only as attributes. */
  function CreateOffer(input: OfferInput, now: string): (d: Draft)
    ensures d.expiresIn == OfferLifetime && d.contentType == JsonContentType
    ensures d.payload.Obj? && d.payload.fields.Keys == {"message", "availabilityWindow"}
    ensures d.payload.fields["message"] == Str(input.message)
    ensures d.payload.fields["availabilityWindow"] == Str(input.availabilityWindow)
  {
    Draft(Obj(map["message" := Str(input.message), "availabilityWindow" := Str(input.availabilityWindow)]),
          JsonContentType, OfferAttributes(input, now), OfferLifetime)
  }

  /** The attributes of a created offer, read back by name: type `'offer'`,
      space `'local-dev'`, status `'active'`, and the caller's wallet and
      skill with the creation time; nothing else. */
  lemma OfferAttributesRead(input: OfferInput, now: string)
    ensures var m := AttributeMap(CreateOffer(input, now).attributes);
      m.Keys == {"type", "wallet", "skill", "spaceId", "createdAt", "status"} &&
      m["type"] == OfferType && m["wallet"] == input.wallet && m["skill"] == input.skill &&
      m["spaceId"] == DefaultSpaceId && m["createdAt"] == now && m["status"] == ActiveStatus
  {
    var attrs := OfferAttributes(input, now);
    OfferAttributeKeys(input, now);
    OfferAttributesDistinct(input, now);
    AttributeMapLookup(attrs, 0);
    AttributeMapLookup(attrs, 1);
    AttributeMapLookup(attrs, 2);
    AttributeMapLookup(attrs, 3);
    AttributeMapLookup(attrs, 4);
    AttributeMapLookup(attrs, 5);
  }

  lemma OfferAttributeKeys(input: OfferInput, now: string)
    ensures AttributeMap(OfferAttributes(input, now)).Keys == {"type", "wallet", "skill", "spaceId", "createdAt", "status"}
  {
    assert Keys(OfferAttributes(input, now)) == ["type", "wallet", "skill", "spaceId", "createdAt", "status"];
  }

  /** The per-entity mapping shared by `listOffers` and `listOffersForWallet`,
      with payload fields read as the corrected `FieldOf` reads them. Empty or
      missing attributes fall back to `''`, `'local-dev'` and `'active'`; a
      missing or unparsable payload leaves message and window `''` and no
      transaction hash. */
  function DecodeOffer(e: Fetched): (o: Offer)
    ensures o.key == e.key
    ensures o.wallet == AttrOr(AttrsOf(e), "wallet", "") && o.skill == AttrOr(AttrsOf(e), "skill", "")
    ensures o.spaceId == AttrOr(AttrsOf(e), "spaceId", DefaultSpaceId) && o.spaceId != ""
    ensures o.createdAt == AttrOr(AttrsOf(e), "createdAt", "")
    ensures o.status == AttrOr(AttrsOf(e), "status", ActiveStatus) && o.status != ""
    ensures e.attributes.None? ==>
      o.wallet == "" && o.skill == "" && o.spaceId == DefaultSpaceId && o.createdAt == "" && o.status == ActiveStatus
    ensures !e.payload.Parsed? ==>
      o.message == Str("") && o.availabilityWindow == Str("") && o.txHash == Undefined
    ensures Truthy(o.message) || o.message == Str("")
    ensures Truthy(o.availabilityWindow) || o.availabilityWindow == Str("")
  {
    var attrs := AttrsOf(e);
    var payload := DecodePayload(e.payload);
    Offer(e.key, AttrOr(attrs, "wallet", ""), AttrOr(attrs, "skill", ""),
          AttrOr(attrs, "spaceId", DefaultSpaceId), AttrOr(attrs, "createdAt", ""),
          AttrOr(attrs, "status", ActiveStatus),
          Or(FieldOf(payload, "message"), Str("")),
          Or(FieldOf(payload, "availabilityWindow"), Str("")),
          FieldOf(payload, "txHash"))
  }

  /** Round trip: an offer written by `createOffer` and read back by the list
      mapping has the wallet, skill, creation time, message and window it was
      written with, status `'active'`, space `'local-dev'` and no transaction
      hash; the caller's `expiresIn` plays no part. */
  lemma OfferRoundTrip(input: OfferInput, now: string, key: string)
    ensures DecodeOffer(Stored(CreateOffer(input, now), key)) ==
      Offer(key, input.wallet, input.skill, DefaultSpaceId, now, ActiveStatus,
            Str(input.message), Str(input.availabilityWindow), Undefined)
  {
    var d := CreateOffer(input, now);
    var m := AttributeMap(d.attributes);
    OfferAttributesRead(input, now);
    assert AttrOr(m, "spaceId", DefaultSpaceId) == DefaultSpaceId;
    assert AttrOr(m, "status", ActiveStatus) == ActiveStatus;
    assert FieldOf(d.payload, "txHash") == Undefined;
  }

  /** `listOffers` / `listOffersForWallet` after the fetch: one offer per
      fetched entity, in fetch order, each mapped by `DecodeOffer`. Which
      entities are fetched (type, wallet, at most 100) is the store's query. */
  function ListOffers(fetched: seq<Fetched>): (r: seq<Offer>)
    ensures |r| == |fetched|
    ensures forall i :: 0 <= i < |fetched| ==> r[i] == DecodeOffer(fetched[i])
  {
    if fetched == [] then [] else [DecodeOffer(fetched[0])] + ListOffers(fetched[1..])
  }

  /** The per-entity mapping exactly as written: the property reads on
      `payload` sit after the `try` block, so a payload that parses to `null`
      throws a TypeError out of the mapping. */
  function DecodeOfferAsWritten(e: Fetched): (r: Outcome<Offer>)
    ensures r.Thrown? <==> NullPayload(e)
    ensures r.Ok? ==> r.value == DecodeOffer(e)
  {
    var payload := DecodePayload(e.payload);
    match FieldAsWritten(payload, "message")
    case Thrown(msg) => Thrown(msg)
    case Ok(_) => Ok(DecodeOffer(e))
  }

  /** The list functions exactly as written: `.map` stops at the first entity
      whose mapping throws, and the whole call rejects with that error. */
  function ListOffersAsWritten(fetched: seq<Fetched>): (r: Outcome<seq<Offer>>)
    ensures r.Ok? <==> forall i :: 0 <= i < |fetched| ==> !NullPayload(fetched[i])
    ensures r.Ok? ==> r.value == ListOffers(fetched)
  {
    if fetched == [] then Ok([])
    else
      match DecodeOfferAsWritten(fetched[0])
      case Thrown(msg) => Thrown(msg)
      case Ok(o) =>
        match ListOffersAsWritten(fetched[1..])
        case Thrown(msg) => Thrown(msg)
        case Ok(rest) => Ok([o] + rest)
  }

  /** The discrepancy: a single stored offer whose payload is the JSON text
      `null` makes the whole listing reject, although the corrected mapping
      returns it with empty message and window. */
  lemma NullPayloadAbortsOffers()
    ensures ListOffersAsWritten([Fetched("k", None, Parsed(Null))]).Thrown?
    ensures ListOffers([Fetched("k", None, Parsed(Null))]) ==
      [Offer("k", "", "", DefaultSpaceId, "", ActiveStatus, Str(""), Str(""), Undefined)]
  {
    assert NullPayload(Fetched("k", None, Parsed(Null)));
  }
}
