/** User profiles in the entity store (src/arkiv/profiles.ts): how
    `createUserProfile` writes a profile into both the attributes and the JSON
    payload, and how `listUserProfiles` reads it back with the attribute taking
    precedence over the payload. */
module Profiles {
  import opened Js
  import opened Entity

  const ProfileType := "user_profile"
  /** One year, in seconds. */
  const ProfileLifetime := 31536000

  /** A profile as `listUserProfiles` returns it. Each field is the attribute
      when non-empty, else the payload field when truthy (any JSON value), else
      `''`. No transaction hash is set. */
  datatype UserProfile = UserProfile(key: string, wallet: JsValue, displayName: JsValue,
                                     skills: JsValue, timezone: JsValue)

  /** A parameter with a default `''`: the default applies when the argument is
      omitted (`undefined`). */
  function OrEmpty(x: Option<string>): (s: string)
    ensures x.Some? ==> s == x.value
    ensures x.None? ==> s == ""
  {
    if x.Some? then x.value else ""
  }

  function ProfileAttributes(displayName: string, skills: string, timezone: string, signer: string): seq<Attribute> {
    [Attribute("type", ProfileType), Attribute("wallet", signer), Attribute("displayName", displayName),
     Attribute("skills", skills), Attribute("timezone", timezone)]
  }

  lemma ProfileAttributesDistinct(displayName: string, skills: string, timezone: string, signer: string)
    ensures DistinctKeys(ProfileAttributes(displayName, skills, timezone, signer))
  {
    var a := ProfileAttributes(displayName, skills, timezone, signer);
    assert a[0].key[0] == 't' && a[1].key[0] == 'w' && a[2].key[0] == 'd' && a[3].key[0] == 's' && a[4].key[0] == 't';
    assert a[0].key[1] == 'y' && a[4].key[1] == 'i';
  }

  /** The draft `createUserProfile(displayName, skills, timezone)` hands to the
      store, `signer` being the address of the wallet client's account. The
      payload holds exactly the display name, skills and time zone (omitted
      ones as `''`), the lifetime is one year, and the content type is JSON. */
  function CreateUserProfile(displayName: string, skills: Option<string>, timezone: Option<string>,
                             signer: string): (d: Draft)
    ensures d.expiresIn == ProfileLifetime && d.contentType == JsonContentType
    ensures d.payload.Obj? && d.payload.fields.Keys == {"displayName", "skills", "timezone"}
    ensures d.payload.fields["displayName"] == Str(displayName)
    ensures d.payload.fields["skills"] == Str(OrEmpty(skills))
    ensures d.payload.fields["timezone"] == Str(OrEmpty(timezone))
  {
    var sk := OrEmpty(skills);
    var tz := OrEmpty(timezone);
    Draft(Obj(map["displayName" := Str(displayName), "skills" := Str(sk), "timezone" := Str(tz)]),
          JsonContentType, ProfileAttributes(displayName, sk, tz, signer), ProfileLifetime)
  }

  lemma ProfileAttributeKeys(displayName: string, skills: string, timezone: string, signer: string)
    ensures AttributeMap(ProfileAttributes(displayName, skills, timezone, signer)).Keys ==
      {"type", "wallet", "displayName", "skills", "timezone"}
  {
    assert Keys(ProfileAttributes(displayName, skills, timezone, signer)) ==
      ["type", "wallet", "displayName", "skills", "timezone"];
  }

  /** The attributes of a created profile, read back by name: type
      `'user_profile'`, the signer as wallet, and the same display name, skills
      and time zone as the payload; nothing else. */
  lemma ProfileAttributesRead(displayName: string, skills: Option<string>, timezone: Option<string>, signer: string)
    ensures var m := AttributeMap(CreateUserProfile(displayName, skills, timezone, signer).attributes);
      m.Keys == {"type", "wallet", "displayName", "skills", "timezone"} &&
      m["type"] == ProfileType && m["wallet"] == signer && m["displayName"] == displayName &&
      m["skills"] == OrEmpty(skills) && m["timezone"] == OrEmpty(timezone)
  {
    var attrs := ProfileAttributes(displayName, OrEmpty(skills), OrEmpty(timezone), signer);
    ProfileAttributeKeys(displayName, OrEmpty(skills), OrEmpty(timezone), signer);
    ProfileAttributesDistinct(displayName, OrEmpty(skills), OrEmpty(timezone), signer);
    AttributeMapLookup(attrs, 0);
    AttributeMapLookup(attrs, 1);
    AttributeMapLookup(attrs, 2);
    AttributeMapLookup(attrs, 3);
    AttributeMapLookup(attrs, 4);
  }

  /** `attrs[k] || payload[k] || ''`. */
  function Field(attrs: map<string, string>, payload: JsValue, k: string): (v: JsValue)
    ensures k in attrs && attrs[k] != "" ==> v == Str(attrs[k])
    ensures (k !in attrs || attrs[k] == "") && Truthy(FieldOf(payload, k)) ==> v == FieldOf(payload, k)
    ensures (k !in attrs || attrs[k] == "") && !Truthy(FieldOf(payload, k)) ==> v == Str("")
  {
    Or(Or(Attr(attrs, k), FieldOf(payload, k)), Str(""))
  }

  /** The per-entity mapping of `listUserProfiles`, payload fields read as the
      corrected `FieldOf` reads them. Every field is truthy or `''`; without a
      parsed payload every field is the non-empty attribute or `''`. */
  function DecodeProfile(e: Fetched): (p: UserProfile)
    ensures p.key == e.key
    ensures Truthy(p.wallet) || p.wallet == Str("")
    ensures Truthy(p.displayName) || p.displayName == Str("")
    ensures Truthy(p.skills) || p.skills == Str("")
    ensures Truthy(p.timezone) || p.timezone == Str("")
    ensures !e.payload.Parsed? ==>
      p.wallet == Str(AttrOr(AttrsOf(e), "wallet", "")) &&
      p.displayName == Str(AttrOr(AttrsOf(e), "displayName", "")) &&
      p.skills == Str(AttrOr(AttrsOf(e), "skills", "")) &&
      p.timezone == Str(AttrOr(AttrsOf(e), "timezone", ""))
  {
    var attrs := AttrsOf(e);
    var payload := DecodePayload(e.payload);
    UserProfile(e.key, Field(attrs, payload, "wallet"), Field(attrs, payload, "displayName"),
                Field(attrs, payload, "skills"), Field(attrs, payload, "timezone"))
  }

  /** Round trip: decoding a profile created by `createUserProfile` yields the
      display name, skills and time zone it was written with (omitted ones as
      `''`) and the signer's address as wallet. */
  lemma ProfileRoundTrip(displayName: string, skills: Option<string>, timezone: Option<string>,
                         signer: string, key: string)
    ensures DecodeProfile(Stored(CreateUserProfile(displayName, skills, timezone, signer), key)) ==
      UserProfile(key, Str(signer), Str(displayName), Str(OrEmpty(skills)), Str(OrEmpty(timezone)))
  {
    var d := CreateUserProfile(displayName, skills, timezone, signer);
    var m := AttributeMap(d.attributes);
    ProfileAttributesRead(displayName, skills, timezone, signer);
    assert FieldOf(d.payload, "wallet") == Undefined;
    assert Field(m, d.payload, "wallet") == Str(signer);
  }

  /** `listUserProfiles` after the fetch: one profile per fetched entity, in
      fetch order, each mapped by `DecodeProfile`. */
  function ListUserProfiles(fetched: seq<Fetched>): (r: seq<UserProfile>)
    ensures |r| == |fetched|
    ensures forall i :: 0 <= i < |fetched| ==> r[i] == DecodeProfile(fetched[i])
  {
    if fetched == [] then [] else [DecodeProfile(fetched[0])] + ListUserProfiles(fetched[1..])
  }

  /** The first field, in the order the mapping reads them, whose attribute
      is missing or empty, so that its `||` goes on to read the payload. */
  function FirstPayloadRead(attrs: map<string, string>): (k: Option<string>)
    ensures k.None? <==> forall f :: f in ProfileFields ==> Truthy(Attr(attrs, f))
    ensures k.Some? ==> k.value in ProfileFields && !Truthy(Attr(attrs, k.value))
  {
    if !Truthy(Attr(attrs, "wallet")) then Some("wallet")
    else if !Truthy(Attr(attrs, "displayName")) then Some("displayName")
    else if !Truthy(Attr(attrs, "skills")) then Some("skills")
    else if !Truthy(Attr(attrs, "timezone")) then Some("timezone")
    else None
  }

  const ProfileFields: set<string> := {"wallet", "displayName", "skills", "timezone"}

  /** The per-entity mapping exactly as written: `payload.k` is read after the
      `try` block, and only for a field whose attribute is falsy; it throws
      when the payload parsed to `null`. */
  function DecodeProfileAsWritten(e: Fetched): (r: Outcome<UserProfile>)
    ensures r.Thrown? <==> ProfileThrows(e)
    ensures r.Ok? ==> r.value == DecodeProfile(e)
  {
    var payload := DecodePayload(e.payload);
    match FirstPayloadRead(AttrsOf(e))
    case None => Ok(DecodeProfile(e))
    case Some(k) =>
      match FieldAsWritten(payload, k)
      case Thrown(msg) => Thrown(msg)
      case Ok(_) => Ok(DecodeProfile(e))
  }

  predicate ProfileThrows(e: Fetched) {
    NullPayload(e) && FirstPayloadRead(AttrsOf(e)).Some?
  }

  /** `listUserProfiles` exactly as written: one throwing entity rejects the
      whole listing. */
  function ListUserProfilesAsWritten(fetched: seq<Fetched>): (r: Outcome<seq<UserProfile>>)
    ensures r.Ok? <==> forall i :: 0 <= i < |fetched| ==> !ProfileThrows(fetched[i])
    ensures r.Ok? ==> r.value == ListUserProfiles(fetched)
  {
    if fetched == [] then Ok([])
    else
      match DecodeProfileAsWritten(fetched[0])
      case Thrown(msg) => Thrown(msg)
      case Ok(p) =>
        match ListUserProfilesAsWritten(fetched[1..])
        case Thrown(msg) => Thrown(msg)
        case Ok(rest) => Ok([p] + rest)
  }

  /** The discrepancy: a profile whose payload is the JSON text `null` makes
      the listing reject, where the corrected mapping reads it from its
      attributes alone. */
  lemma NullPayloadAbortsProfiles()
    ensures ListUserProfilesAsWritten([Fetched("k", None, Parsed(Null))]).Thrown?
    ensures ListUserProfiles([Fetched("k", None, Parsed(Null))]) ==
      [UserProfile("k", Str(""), Str(""), Str(""), Str(""))]
  {
    assert ProfileThrows(Fetched("k", None, Parsed(Null)));
  }
}
