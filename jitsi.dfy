/** Video rooms for mentorship sessions (src/lib/jitsi.ts): the room name
    derived from a session key, the join URL built from a room name, and the
    meeting record combining the two. The SHA-256 digest of the session key
    (FIPS 180-4) and the `JITSI_BASE_URL` environment variable are inputs. */
module Jitsi {
  import opened Js
  import opened UriEncoding

  const RoomPrefix := "mg"
  const DefaultBaseUrl := "https://meet.jit.si"
  const JitsiProvider := "jitsi"

  predicate IsLowerHex(c: char) {
    ('0' <= c <= '9') || ('a' <= c <= 'f')
  }

  /** A SHA-256 digest as `digest('hex')` writes it: 64 lower-case
      hexadecimal characters. */
  predicate IsHexDigest(h: string) {
    |h| == 64 && forall i :: 0 <= i < |h| ==> IsLowerHex(h[i])
  }

  /** `buildJitsiRoomName(sessionKey)`, `digest` being the hexadecimal SHA-256
      digest of `sessionKey`: `mg-`, the key verbatim, `-`, then the first 16
      digest characters. */
  function BuildRoomName(sessionKey: string, digest: string): (room: string)
    requires IsHexDigest(digest)
    ensures |room| == |sessionKey| + 20
    ensures room[..3] == RoomPrefix + "-"
    ensures room[3..3 + |sessionKey|] == sessionKey
    ensures room[3 + |sessionKey|] == '-'
    ensures room[|sessionKey| + 4..] == digest[..16]
  {
    RoomPrefix + "-" + sessionKey + "-" + digest[..16]
  }

  /** Distinct session keys give distinct room names, whatever the digests:
      the key sits between a fixed prefix and a fixed-length suffix. */
  lemma RoomNameInjective(k1: string, d1: string, k2: string, d2: string)
    requires IsHexDigest(d1) && IsHexDigest(d2)
    requires BuildRoomName(k1, d1) == BuildRoomName(k2, d2)
    ensures k1 == k2
  {
    var r := BuildRoomName(k1, d1);
    assert |k1| == |k2|;
    assert k1 == r[3..3 + |k1|] == k2;
  }

  /** The room name, encoded for a URL, is the key encoded between the
      unchanged prefix and digest: only the key can need escapes. */
  lemma EncodedRoomName(sessionKey: string, digest: string)
    requires IsHexDigest(digest)
    ensures Encode(BuildRoomName(sessionKey, digest)) == "mg-" + Encode(sessionKey) + "-" + digest[..16]
  {
    var h := digest[..16];
    var key := sessionKey;
    assert Encode(h) == h by {
      assert AllUnreserved(h) by {
        forall i | 0 <= i < |h| ensures Unreserved(h[i]) {
          assert IsLowerHex(digest[i]);
        }
      }
      EncodeIdentity(h);
    }
    assert Encode(RoomPrefix + "-") == RoomPrefix + "-" by {
      EncodeIdentity(RoomPrefix + "-");
    }
    assert Encode("-") == "-" by {
      EncodeIdentity("-");
    }
    var p := RoomPrefix + "-";
    assert p == "mg-";
    calc {
      Encode(BuildRoomName(key, digest));
      Encode(((p + key) + "-") + h);
      { EncodeAppend((p + key) + "-", h); }
      Encode((p + key) + "-") + Encode(h);
      { EncodeAppend(p + key, "-"); }
      (Encode(p + key) + Encode("-")) + Encode(h);
      { EncodeAppend(p, key); }
      ((Encode(p) + Encode(key)) + Encode("-")) + Encode(h);
    }
  }

  /** `baseUrl || process.env.JITSI_BASE_URL || 'https://meet.jit.si'`. */
  function ChooseBase(baseUrl: Option<string>, env: Option<string>): (base: string)
    ensures base != ""
    ensures baseUrl.Some? && baseUrl.value != "" ==> base == baseUrl.value
    ensures (baseUrl.None? || baseUrl.value == "") && env.Some? && env.value != "" ==> base == env.value
    ensures (baseUrl.None? || baseUrl.value == "") && (env.None? || env.value == "") ==> base == DefaultBaseUrl
  {
    if baseUrl.Some? && baseUrl.value != "" then baseUrl.value
    else if env.Some? && env.value != "" then env.value
    else DefaultBaseUrl
  }

  /** `base.replace(/\/+$/, '')`: the longest run of trailing slashes removed.
      What is left is a prefix of `base` that does not end in `/`, and only
      slashes were removed. */
  function StripTrailingSlashes(base: string): (clean: string)
    ensures |clean| <= |base| && clean == base[..|clean|]
    ensures clean == [] || clean[|clean| - 1] != '/'
    ensures forall i :: |clean| <= i < |base| ==> base[i] == '/'
  {
    if base != [] && base[|base| - 1] == '/' then StripTrailingSlashes(base[..|base| - 1]) else base
  }

  /** Stripping is idempotent, and leaves a base without a trailing slash unchanged. */
  lemma StripIdempotent(base: string)
    ensures StripTrailingSlashes(StripTrailingSlashes(base)) == StripTrailingSlashes(base)
    ensures base == [] || base[|base| - 1] != '/' ==> StripTrailingSlashes(base) == base
  {
  }

  /** `buildJitsiUrlFromRoomName(roomName, baseUrl)`: the cleaned base, a
      slash, and the encoded room name, which is the last path segment. */
  function BuildJitsiUrl(roomName: string, baseUrl: Option<string>, env: Option<string>): (url: string)
    ensures var clean := StripTrailingSlashes(ChooseBase(baseUrl, env));
      url == clean + "/" + Encode(roomName) && '/' !in Encode(roomName)
  {
    EncodeNoSlash(roomName);
    StripTrailingSlashes(ChooseBase(baseUrl, env)) + "/" + Encode(roomName)
  }

  /** A key of unreserved characters gives a room name that encoding leaves
      unchanged. */
  lemma PlainRoomNameEncodes(sessionKey: string, digest: string)
    requires IsHexDigest(digest) && AllUnreserved(sessionKey)
    ensures Encode(BuildRoomName(sessionKey, digest)) == BuildRoomName(sessionKey, digest)
  {
    EncodedRoomName(sessionKey, digest);
    EncodeIdentity(sessionKey);
    assert BuildRoomName(sessionKey, digest) == "mg-" + sessionKey + "-" + digest[..16];
  }

  /** A room name made of unreserved characters only appears in the URL as it is. */
  lemma UrlKeepsPlainRoomName(sessionKey: string, digest: string, baseUrl: Option<string>, env: Option<string>)
    requires IsHexDigest(digest) && AllUnreserved(sessionKey)
    ensures BuildJitsiUrl(BuildRoomName(sessionKey, digest), baseUrl, env) ==
      StripTrailingSlashes(ChooseBase(baseUrl, env)) + "/" + BuildRoomName(sessionKey, digest)
  {
    PlainRoomNameEncodes(sessionKey, digest);
  }

  /** What `generateJitsiMeeting` returns. */
  datatype Meeting = Meeting(videoProvider: string, videoRoomName: string, videoJoinUrl: string)

  /** `generateJitsiMeeting(sessionKey, baseUrl)`: provider `'jitsi'`, the room
      name of the key, and a join URL ending in that same room name. */
  function GenerateJitsiMeeting(sessionKey: string, digest: string, baseUrl: Option<string>,
                                env: Option<string>): (m: Meeting)
    requires IsHexDigest(digest)
    ensures m.videoProvider == JitsiProvider
    ensures m.videoRoomName == BuildRoomName(sessionKey, digest)
    ensures m.videoJoinUrl ==
      StripTrailingSlashes(ChooseBase(baseUrl, env)) + "/" + ("mg-" + Encode(sessionKey) + "-" + digest[..16])
  {
    var room := BuildRoomName(sessionKey, digest);
    EncodedRoomName(sessionKey, digest);
    Meeting(JitsiProvider, room, BuildJitsiUrl(room, baseUrl, env))
  }

  /** Under one base URL, distinct session keys get distinct join URLs. */
  lemma JoinUrlInjective(k1: string, d1: string, k2: string, d2: string,
                         baseUrl: Option<string>, env: Option<string>)
    requires IsHexDigest(d1) && IsHexDigest(d2)
    requires GenerateJitsiMeeting(k1, d1, baseUrl, env).videoJoinUrl ==
             GenerateJitsiMeeting(k2, d2, baseUrl, env).videoJoinUrl
    ensures k1 == k2
  {
    var prefix := StripTrailingSlashes(ChooseBase(baseUrl, env)) + "/";
    var r1, r2 := BuildRoomName(k1, d1), BuildRoomName(k2, d2);
    var u1, u2 := BuildJitsiUrl(r1, baseUrl, env), BuildJitsiUrl(r2, baseUrl, env);
    assert u1 == u2;
    assert Encode(r1) == u1[|prefix|..];
    assert Encode(r2) == u2[|prefix|..];
    EncodeInjective(r1, r2);
    RoomNameInjective(k1, d1, k2, d2);
  }
}
