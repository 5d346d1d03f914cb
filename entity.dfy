/** Entities of the Arkiv store as the create and list functions see them:
    a draft handed to `createEntity` (attribute pairs, a JSON payload, a
    lifetime) and a fetched entity handed to the per-entity mapping. */
module Entity {
  import opened Js

  /** One `{ key, value }` pair of an entity's attribute list. */
  datatype Attribute = Attribute(key: string, value: string)

  /** The argument of `createEntity`: the payload before `JSON.stringify` and
      `TextEncoder`, the content type, the attribute pairs in order and the
      lifetime in seconds. */
  datatype Draft = Draft(payload: JsValue, contentType: string, attributes: seq<Attribute>, expiresIn: nat)

  const JsonContentType := "application/json"

  /** The payload of a fetched entity, as the mapping's `try` block leaves it:
      absent (a falsy `entity.payload`), text that `JSON.parse` accepts with the
      value it yields, or text that `JSON.parse` rejects. */
  datatype StoredPayload = NoPayload | Parsed(json: JsValue) | Unparsable

  /** A fetched entity: its key, its attributes (`entity.attributes`, possibly
      absent) and its payload. */
  datatype Fetched = Fetched(key: string, attributes: Option<map<string, string>>, payload: StoredPayload)

  function Keys(attrs: seq<Attribute>): seq<string> {
    seq(|attrs|, i requires 0 <= i < |attrs| => attrs[i].key)
  }

  predicate DistinctKeys(attrs: seq<Attribute>) {
    forall i, j :: 0 <= i < j < |attrs| ==> attrs[i].key != attrs[j].key
  }

  /** The attributes of a stored entity read back by name: a later pair with
      the same key overrides an earlier one. */
  function AttributeMap(attrs: seq<Attribute>): (m: map<string, string>)
    ensures forall k :: k in m <==> k in Keys(attrs)
  {
    if attrs == [] then map[]
    else
      var init := attrs[..|attrs| - 1];
      assert Keys(attrs) == Keys(init) + [attrs[|attrs| - 1].key];
      AttributeMap(init)[attrs[|attrs| - 1].key := attrs[|attrs| - 1].value]
  }

  /** With distinct keys every pair can be read back by its key. */
  lemma {:induction false} AttributeMapLookup(attrs: seq<Attribute>, i: nat)
    requires DistinctKeys(attrs) && i < |attrs|
    ensures attrs[i].key in AttributeMap(attrs)
    ensures AttributeMap(attrs)[attrs[i].key] == attrs[i].value
  {
    var n := |attrs| - 1;
    if i < n {
      var init := attrs[..n];
      assert init[i] == attrs[i];
      AttributeMapLookup(init, i);
    }
  }

  /** What the store hands back for a draft it accepted under `key`. The JSON
      text is parsed back into the value it was produced from, so `payload` is
      the draft's payload itself; the attribute list is read back by name. */
  function Stored(d: Draft, key: string): Fetched {
    Fetched(key, Some(AttributeMap(d.attributes)), Parsed(d.payload))
  }

  /** The value of `payload` after the `try` block: `{}` unless a payload was
      present and parsed. */
  function DecodePayload(p: StoredPayload): (v: JsValue)
    ensures !p.Parsed? ==> v == Obj(map[])
    ensures p.Parsed? ==> v == p.json
  {
    match p
    case NoPayload => Obj(map[])
    case Unparsable => Obj(map[])
    case Parsed(json) => json
  }

  /** `payload[k]` on a value that has properties: only an object has the
      fields the mappings read, so every other value yields `undefined`. */
  function FieldOf(payload: JsValue, k: string): (v: JsValue)
    ensures !payload.Obj? ==> v == Undefined
    ensures payload.Obj? && k !in payload.fields ==> v == Undefined
    ensures payload.Obj? && k in payload.fields ==> v == payload.fields[k]
  {
    if payload.Obj? then Get(payload.fields, k) else Undefined
  }

  /** The message of the TypeError raised by reading a property of `null`. */
  function NullReadMessage(k: string): string {
    "Cannot read properties of null (reading '" + k + "')"
  }

  /** `payload.k` exactly as written: reading a property of `null` (or
      `undefined`) throws, and the throw happens outside the `try` block. */
  function FieldAsWritten(payload: JsValue, k: string): (r: Outcome<JsValue>)
    ensures r.Thrown? <==> payload.Null? || payload.Undefined?
    ensures r.Ok? ==> r.value == FieldOf(payload, k)
  {
    if payload.Null? || payload.Undefined? then Thrown(NullReadMessage(k))
    else Ok(FieldOf(payload, k))
  }

  /** The attributes as the mapping reads them: `entity.attributes || {}`. */
  function AttrsOf(e: Fetched): map<string, string> {
    if e.attributes.Some? then e.attributes.value else map[]
  }

  /** `attrs[k]` as a JavaScript value: the string, or `undefined` when absent. */
  function Attr(attrs: map<string, string>, k: string): (v: JsValue)
    ensures k in attrs <==> v.Str?
    ensures k in attrs ==> v == Str(attrs[k])
    ensures k !in attrs ==> v == Undefined
  {
    if k in attrs then Str(attrs[k]) else Undefined
  }

  /** `attrs[k] || d`: the attribute when it is present and non-empty, else the default. */
  function AttrOr(attrs: map<string, string>, k: string, d: string): (r: string)
    ensures k in attrs && attrs[k] != "" ==> r == attrs[k]
    ensures k !in attrs || attrs[k] == "" ==> r == d
  {
    if k in attrs && attrs[k] != "" then attrs[k] else d
  }

  /** Whether a fetched entity makes the as-written mapping throw. `JSON.parse`
      yields `null` but never `undefined`; `Undefined` is included because the
      parsed value is any `JsValue` here, and `payload.x` throws on it alike. */
  predicate NullPayload(e: Fetched) {
    var p := DecodePayload(e.payload);
    p.Null? || p.Undefined?
  }
}
