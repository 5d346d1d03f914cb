# mentor-graph core, modelled in Dafny

This project models the server-side logic of mentor-graph. It is a mentorship network whose asks, offers, profiles, sessions and feedback live as entities in the Arkiv entity store. The model covers five parts:

- **`/api/me`** (`MeHandler`, `Reputation`, `SkillRanking`, `SkillsText`):
  - GET gathers the current wallet's profile, asks, offers, sessions and feedback. It enriches the profile with reputation figures:
    - completed, given and received session counts
    - mean rating and mean NPS
    - the top five skills by completed sessions
    - peer testimonials
    - a reputation score
  - POST dispatches on `action`: create or update the profile, create an ask, or create an offer. Each action first checks the fields it requires. It also derives the skills array from comma-separated text.
- **Offer and profile entities** (`Entity`, `Offers`, `Profiles`): how a record is laid out as attribute pairs plus a JSON payload with a fixed lifetime, and how a fetched entity is mapped back to a record.
- **Video rooms** (`Jitsi`, `UriEncoding`): the room name `mg-<key>-<16 hex digits of SHA-256(key)>`, the choice of base URL and the removal of its trailing slashes, and `encodeURIComponent`. The encoder is modelled as UTF-8 percent-escaping of every character outside the unreserved set of section 2.3 of RFC 2396. A decoder is proved to invert it.
- **`/api/network`** (`NetworkHandler`): the method check, the step-by-step construction of the three filter objects from the query, and the four listings.
- **`/api/asks`, `/api/offers`, `/api/profiles`** (`AsksHandler`, `OffersHandler`, `ProfilesHandler`): method dispatch, required-field checks, defaults, and agreement with the matching `/api/me` actions.

Conventions:

- Every external effect is an input:
  - results of store reads and writes (`Outcome`: a value or a thrown message)
  - the clock reading
  - the `JITSI_BASE_URL` environment value
  - the SHA-256 hex digest
  - the signer address of the wallet client
  - the current wallet
- A handler's result is the reply (status and body) together with the sequence of store calls it makes.
- Request bodies, query strings and payloads are `Js.JsValue`s with JavaScript truthiness.
- Numbers are exact reals, and `Math.round(x)` is `floor(x + 0.5)`.

## Model

| member | source | states |
|---|---|---|
| Reputation.SessionCountsBounded | pages/api/me.ts:20-22 | given and received counts never exceed the completed count; one completed skill per completed session |
| Reputation.OnlyCompletedCount | pages/api/me.ts:20-22 | a session whose status is not `'completed'` changes none of the three counts nor the skills tallied |
| Reputation.FalsyRatingIgnored | pages/api/me.ts:24-27 | feedback with a falsy (absent or 0) rating, or addressed to another wallet, changes neither the ratings averaged nor the mean rating |
| Reputation.TruthyRatingCounted | pages/api/me.ts:24-27 | a truthy rating addressed to the wallet joins the ratings averaged, after the earlier ones |
| Reputation.DefinedNpsCounted | pages/api/me.ts:29-32 | any defined NPS addressed to the wallet joins the values averaged, after the earlier ones |
| Reputation.MissingNpsIgnored | pages/api/me.ts:29-32 | feedback without an NPS or addressed to another wallet changes neither the NPS values nor their mean |
| Reputation.ZeroNpsCounted | pages/api/me.ts:29-32 | an NPS of 0 addressed to the wallet is averaged in, unlike a 0 rating |
| Reputation.MeanBounds | pages/api/me.ts:25-27 | the mean of a non-empty list of values in [lo, hi] lies in [lo, hi] |
| Reputation.Round | pages/api/me.ts:54 | `Math.round` as round-half-up: the result n satisfies n ≤ x + 0.5 < n + 1 |
| Reputation.ReputationScoreRange | pages/api/me.ts:54 | the score is 0 without completed sessions or ratings, else between 10·lo and 10·hi per completed session |
| Reputation.TestimonialsInOrder | pages/api/me.ts:45-51 | testimonials of concatenated feedback concatenate, and a single item contributes itself exactly when it is addressed to the wallet with non-empty text |
| Reputation.TestimonialsText | pages/api/me.ts:45-51 | no testimonial has empty text |
| Reputation.CountCompletedSkills | pages/api/me.ts:34-37 | the count object filled in place holds, for each completed session's skill, its number of occurrences, with keys in first-seen order |
| Reputation.CountSkillUsage | pages/api/me.ts:34-39 | the count object's entries, read in insertion order, equal the tally of completed sessions' skills |
| Reputation.ComputeStats | pages/api/me.ts:19-54 | the figures, with the skill counts taken by the in-place counting loop, equal the reference definition of all figures |
| Reputation.StatsFacts | pages/api/me.ts:20-54 | combined properties of the figures: counts bounded; at most 5 ranked skills, distinct, non-increasing, each with its true count; with at most 5 distinct skills the ranked counts sum to the completed count |
| Reputation.TwoSessionsExample | pages/api/me.ts:24-27 | two completed sessions rated 4 and 5 give mean 4.5, score 90, rounded mean 4.5 |
| Reputation.EnrichedProfile | pages/api/me.ts:57-68 | `null` exactly when the profile is `null`; otherwise every profile field kept unless a computed field overrides it, and every computed field present |
| SkillRanking.TallyKeys | pages/api/me.ts:35-40 | the tally lists each skill once, in first-seen order, and only skills that occur |
| SkillRanking.TallyCounts | pages/api/me.ts:35-40 | each tally entry counts the occurrences of its skill, and the counts add up to the number of skills |
| SkillRanking.SortByCountSpec | pages/api/me.ts:41 | the descending sort is a permutation, non-increasing, and stable: entries of equal count keep their order |
| SkillRanking.TopSkillsShape | pages/api/me.ts:39-42 | at most 5 entries (exactly min(5, distinct skills)), distinct, non-increasing, each count the skill's occurrences |
| SkillRanking.TopSkillsDropped | pages/api/me.ts:39-42 | a skill not ranked has a count no larger than every ranked count |
| SkillRanking.TopSkillsTies | pages/api/me.ts:39-42 | the ranked entries of any one count are a prefix of the tally's entries of that count, in first-seen order |
| SkillRanking.TopSkillsTotal | pages/api/me.ts:39-42 | with at most 5 distinct skills the ranked counts sum to the number of completed sessions |
| SkillsText.Trim | pages/api/me.ts:111 | `trim` never lengthens its input, keeps only characters of it, and leaves no white space at either end |
| SkillsText.TrimCutsOnlySpace | pages/api/me.ts:111 | what `trim` keeps is a contiguous part of the text with only white space before and after it |
| SkillsText.JoinSplit | pages/api/me.ts:111 | joining the parts of `split(',')` with `,` gives back the text |
| SkillsText.SplitJoin | pages/api/me.ts:111 | splitting comma-joined parts that contain no comma gives back the parts |
| SkillsText.ParseSkills | pages/api/me.ts:111 | every element of `split(',').map(trim).filter(Boolean)` is non-empty, without surrounding white space and without a comma |
| SkillsText.ParseSkillsJoin | pages/api/me.ts:111 | parsing comma-joined clean, non-empty skills gives back the same list |
| MeHandler.GetReply | pages/api/me.ts:10-77 | the five reads are made; 200 exactly when none throws, with the wallet, the profile enriched with the figures of `StatsOf` (present exactly when one was found), and the asks, offers, sessions and feedback as fetched; 500 otherwise |
| MeHandler.HandleGet | pages/api/me.ts:10-77 | the GET branch, computing the figures with the counting loop, equals `GetReply` |
| MeHandler.DeriveSkillsArray | pages/api/me.ts:111 | a truthy skills array passes through; else empty skills give `undefined`; text gives only clean non-empty parts; a truthy non-string throws |
| MeHandler.SkillsArrayFromJoined | pages/api/me.ts:111 | comma-joined clean skills without an array give back exactly that list |
| MeHandler.ProfileFromBody | pages/api/me.ts:102-120 | the record written: current wallet; display name, username, image and the three bios as given; skills and time zone defaulted to `''`; the derived skills array; languages, contact links, seniority, domains and both role lists as given when truthy, else `undefined`; throws exactly when deriving the skills array throws |
| MeHandler.HandlePost | pages/api/me.ts:78-192 | 400 exactly for an unknown action or a missing required field, with no store call; `Invalid action` for an unknown action; otherwise at most one write; 200 exactly when it succeeds; the body always has `ok`, true exactly on 200 |
| MeHandler.CreateAndUpdateAgree | pages/api/me.ts:81-162 | create and update reply the same and write the same record; only the store call differs |
| MeHandler.ValidProfile | pages/api/me.ts:81-162 | a profile action with a display name and a derivable skills array makes exactly one call, `createUserProfile` or `updateUserProfile` as the action says, with `ProfileFromBody`'s record, and answers `{ ok: true }` on success |
| MeHandler.SkillsSplitThrows | pages/api/me.ts:111 | a truthy non-text `skills` without a skills array gives 500 with the `split` TypeError's message and no store call |
| MeHandler.ValidOffer | pages/api/me.ts:176-189 | a valid offer makes exactly one `createOffer` call with the wallet, skill, message and window, and echoes the receipt with `ok: true` |
| MeHandler.ValidAsk | pages/api/me.ts:163-175 | a valid ask makes exactly one `createAsk` call with the wallet, skill and message, and echoes the receipt with `ok: true` |
| MeHandler.WriteThrows | pages/api/me.ts:81-198 | an accepted body whose record can be built makes its one call, and a throw from it gives 500 with `ok: false` and the error's text or `Internal server error` |
| MeHandler.Handle | pages/api/me.ts:8-200 | GET is `GetReply`, POST is `HandlePost`, any other method 405 without `ok` and no call |
| Entity.DecodePayload | src/arkiv/offers.ts:66-79 | a missing or unparsable payload leaves `{}`; a parsed one is its JSON value |
| Entity.FieldOf | src/arkiv/offers.ts:88-90 | reading a payload field gives the field when present and `undefined` otherwise, for any payload value |
| Entity.FieldAsWritten | src/arkiv/offers.ts:88-90 | the property read as written throws exactly when the payload is `null` or `undefined`, and otherwise agrees with `FieldOf` |
| Entity.AttrOr | src/arkiv/offers.ts:80-87 | `attrs.k \|\| d`: the attribute when present and non-empty, else the default |
| Entity.AttributeMapLookup | src/arkiv/offers.ts:41-48 | with distinct keys, each attribute pair written is read back by its key |
| Offers.CreateOffer | src/arkiv/offers.ts:16-53 | lifetime 7200 s, JSON content, payload holding exactly message and availability window |
| Offers.OfferAttributesRead | src/arkiv/offers.ts:41-48 | the attributes hold exactly type `'offer'`, wallet, skill, space `'local-dev'`, creation time and status `'active'` |
| Offers.DecodeOffer | src/arkiv/offers.ts:80-91 | attribute defaults `''`, `'local-dev'`, `'active'` (space and status never empty); without a parsed payload message and window are `''` and no hash |
| Offers.OfferRoundTrip | src/arkiv/offers.ts:16-91 | an offer created then listed gives back wallet, skill, creation time, message and window, with status `'active'`, space `'local-dev'` and no hash; the caller's lifetime plays no part |
| Offers.ListOffers | src/arkiv/offers.ts:65-92 | one offer per fetched entity, in order, each mapped alike; `listOffersForWallet` (lines 106-133) applies the identical mapping |
| Offers.ListOffersAsWritten | src/arkiv/offers.ts:65-92 | the listing as written succeeds exactly when no payload is `null`, and then equals `ListOffers` |
| Offers.NullPayloadAbortsOffers | src/arkiv/offers.ts:74-88 | a payload of JSON `null` rejects the listing as written, while the corrected mapping yields a default offer |
| Profiles.OrEmpty | src/arkiv/profiles.ts:15-16 | omitted skills and time zone default to `''` |
| Profiles.CreateUserProfile | src/arkiv/profiles.ts:13-39 | lifetime 31536000 s, JSON content, payload holding exactly display name, skills and time zone |
| Profiles.ProfileAttributesRead | src/arkiv/profiles.ts:28-34 | attributes hold exactly type `'user_profile'`, the signer as wallet, and the payload's display name, skills and time zone |
| Profiles.Field | src/arkiv/profiles.ts:69-72 | a non-empty attribute beats the payload, a truthy payload field beats `''` |
| Profiles.DecodeProfile | src/arkiv/profiles.ts:66-73 | every field is truthy or `''`; without a parsed payload each field is the non-empty attribute or `''` |
| Profiles.ProfileRoundTrip | src/arkiv/profiles.ts:13-73 | a profile created then listed gives back display name, skills and time zone (omitted ones `''`) and the signer as wallet |
| Profiles.ListUserProfiles | src/arkiv/profiles.ts:51-74 | one profile per fetched entity, in order, each mapped alike |
| Profiles.FirstPayloadRead | src/arkiv/profiles.ts:69-72 | the payload is read exactly when some field's attribute is missing or empty |
| Profiles.ListUserProfilesAsWritten | src/arkiv/profiles.ts:51-74 | the listing as written succeeds exactly when no entity has a `null` payload and a field missing from its attributes, and then equals `ListUserProfiles` |
| Profiles.NullPayloadAbortsProfiles | src/arkiv/profiles.ts:60-72 | a `null` payload without attributes rejects the listing as written; the corrected mapping yields an all-`''` profile |
| UriEncoding.Encode | src/lib/jitsi.ts:29 | `encodeURIComponent` never shortens and emits only unreserved characters and `%` |
| UriEncoding.EncodeIdentity | src/lib/jitsi.ts:29 | encoding leaves a text unchanged exactly when all its characters are unreserved, and lengthens it otherwise |
| UriEncoding.DecodeEncode | src/lib/jitsi.ts:29 | decoding the percent-escaped UTF-8 gives back the text |
| UriEncoding.EncodeInjective | src/lib/jitsi.ts:29 | distinct texts encode differently |
| UriEncoding.EncodeNoSlash | src/lib/jitsi.ts:29 | an encoded text contains no `/` |
| Jitsi.BuildRoomName | src/lib/jitsi.ts:9-20 | length key + 20: `mg-`, the key verbatim, `-`, the first 16 digest characters |
| Jitsi.RoomNameInjective | src/lib/jitsi.ts:19 | distinct session keys give distinct room names, whatever the digests |
| Jitsi.EncodedRoomName | src/lib/jitsi.ts:19-29 | only the key part of a room name can need escaping |
| Jitsi.ChooseBase | src/lib/jitsi.ts:26 | the explicit base if non-empty, else the environment value if non-empty, else `https://meet.jit.si` |
| Jitsi.StripTrailingSlashes | src/lib/jitsi.ts:28 | a prefix of the base without a trailing `/`, only slashes removed |
| Jitsi.StripIdempotent | src/lib/jitsi.ts:28 | stripping twice is stripping once; a base without a trailing slash is unchanged |
| Jitsi.BuildJitsiUrl | src/lib/jitsi.ts:25-30 | cleaned base, `/`, then the encoded room name, which holds no further `/` |
| Jitsi.PlainRoomNameEncodes | src/lib/jitsi.ts:19-29 | a key of unreserved characters gives a room name that `encodeURIComponent` leaves unchanged |
| Jitsi.UrlKeepsPlainRoomName | src/lib/jitsi.ts:29 | for a key of unreserved characters the URL ends in the room name itself |
| Jitsi.GenerateJitsiMeeting | src/lib/jitsi.ts:35-48 | provider `'jitsi'`, the key's room name, and a join URL built from that same name |
| Jitsi.JoinUrlInjective | src/lib/jitsi.ts:35-48 | under one base URL, distinct session keys get distinct join URLs |
| NetworkHandler.Filter | pages/api/network.ts:17-31 | a filter key is present exactly when its query value is truthy, with that value |
| NetworkHandler.WhenNonEmpty | pages/api/network.ts:20-37 | an empty filter is passed as `undefined`, a non-empty one as it is |
| NetworkHandler.BuildParams | pages/api/network.ts:12-31 | the three objects built field by field equal the ask/offer, profile and session filters |
| NetworkHandler.ProfileFilterExtends | pages/api/network.ts:17-30 | the profile filter is the ask/offer filter plus a truthy seniority; seniority never narrows asks, offers or sessions |
| NetworkHandler.NetworkReply | pages/api/network.ts:6-57 | 405 with no call exactly for non-GET, its body `{ ok: false, error: 'Method not allowed' }`; otherwise the four listings with their filters; 500 with `ok: false` on a failure; on success asks, offers, profiles and sessions each returned as listed, profiles unfiltered |
| NetworkHandler.Handle | pages/api/network.ts:6-57 | the route as written equals `NetworkReply` |
| NetworkHandler.NoFilterNoParams | pages/api/network.ts:17-37 | with no filter in the query every listing gets `undefined` |
| Http.ErrorText | pages/api/asks.ts:27-30 | the thrown message when non-empty, else `Internal server error` |
| AsksHandler.AsksReply | pages/api/asks.ts:4-31 | 405 exactly for other methods; 400 exactly for a POST missing skill or message, with no call; GET lists the wallet's asks; a valid POST calls `createAsk` with the wallet, skill and message and replies `{key, txHash}`; 500 exactly when the call throws; error bodies carry no `ok`: the 400 names the missing fields, the 405 says `Method not allowed`, and the 500 carries the thrown message or `Internal server error` |
| AsksHandler.AgreesWithMeCreateAsk | pages/api/asks.ts:12-21 | this route and the `createAsk` action of `/api/me` reject the same bodies and make the same call, lifetime apart |
| OffersHandler.OffersReply | pages/api/offers.ts:4-32 | 405 exactly for other methods; 400 exactly for a POST missing skill, message or window, with no call; a valid POST forwards the three fields with the wallet and replies `{key, txHash}`; 500 exactly when the call throws; error bodies carry no `ok`: the 400 names the missing fields, the 405 says `Method not allowed`, and the 500 carries the thrown message or `Internal server error` |
| OffersHandler.AgreesWithMeCreateOffer | pages/api/offers.ts:12-22 | this route and the `createOffer` action of `/api/me` reject the same bodies and make the same call, lifetime apart |
| ProfilesHandler.ProfileRecord | pages/api/profiles.ts:16-22 | the record written: wallet, display name, skills and time zone defaulted to `''`, nothing else |
| ProfilesHandler.ProfilesReply | pages/api/profiles.ts:4-32 | 405 exactly for other methods; 400 exactly for a POST without a display name, with no call; a valid POST writes `ProfileRecord` and replies `{key, txHash}`; 500 exactly when the call throws; error bodies carry no `ok`: the 400 names the missing fields, the 405 says `Method not allowed`, and the 500 carries the thrown message or `Internal server error` |
| ProfilesHandler.AgreesWithMeCreateProfile | pages/api/profiles.ts:10-22 | this route and the `createProfile` action of `/api/me` require the same field and default display name, skills and time zone alike |

## Left out

- Floating point: averages, the score and the rounding are exact reals. IEEE rounding artefacts are not modelled.
- `Object.entries` order: keys are read in insertion order. JavaScript lists integer-like keys first, which would change the order of tied skills named like numbers. Prototype keys such as `constructor` in the count object are not modelled either.
- Ratings and NPS scores are integers. A fractional rating or score, which the averaging would accept, is not modelled; the feedback store module that defines them is not part of this model.
- `parseInt` on `expiresIn`: the raw truthy value stands for its parse.
- Concurrency: `Promise.all` is a set of independent inputs. When several reads fail, the error of the first in argument order is taken.
- SDK and store behaviour:
  - building the query
  - filtering by type and wallet
  - the 100-result cap
  - the transaction
  - the conversion of attribute pairs to a map (a later pair wins)

  Fetched entities and write receipts are inputs.
- `TextEncoder`/`TextDecoder` and `JSON.stringify`/`JSON.parse` are the identity on the values written. A stored payload is its parsed JSON value, missing or unparsable.
- SHA-256 (FIPS 180-4), the clock, `JITSI_BASE_URL` and the wallet addresses are inputs.
- Non-object request bodies and queries are not modelled. Bodies and queries are maps from names to JSON values.
- The asks, sessions and feedback store modules are not part of this model. Asks stay opaque JSON values, and sessions and feedback take the fields `/api/me` reads.
- `updateUserProfile`, `getProfileByWallet` and `listUserProfilesForWallet` are not part of this model. The routes pass `createUserProfile` an object, which does not match the positional signature in src/arkiv/profiles.ts:13-17. Both routes are modelled as written, up to the store call.
- The filter arguments `/api/network` passes to `listOffers` and `listUserProfiles` are recorded as store calls. The listing functions take no arguments and ignore them.
- A profile's `txHash` field is never set by the mapping and is not represented in `Profiles.UserProfile`.
- Rendering, logging (`console.error`), the React pages, `/api/profile` and `/api/wallet` are not modelled.

## Findings

| source | as written | input that shows it | evidently intended | confidence | as-written member | corrected member |
|---|---|---|---|---|---|---|
| src/arkiv/offers.ts:74-90 | `JSON.parse` may yield `null`; `payload.message` is then read outside the `try` and throws, rejecting the whole listing | an offer entity whose payload is the text `null` | a missing or unusable payload leaves message and window `''` and the listing goes on | not executed | Offers.ListOffersAsWritten | Offers.ListOffers |
| src/arkiv/profiles.ts:60-72 | the same `null` payload makes `payload.wallet` (or whichever field lacks an attribute) throw, rejecting the whole listing | a profile entity without attributes whose payload is the text `null` | fields fall back to attributes or `''` and the listing goes on | not executed | Profiles.ListUserProfilesAsWritten | Profiles.ListUserProfiles |
