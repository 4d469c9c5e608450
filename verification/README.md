# SPN2Client: a Dafny model of a Save Page Now client

This project models the core of `SPN2Client`. The client asks a web archive's
"Save Page Now" service to capture a page, then queries the capture job's
status, the system's queue depths and the caller's quota. The model covers
the logic that does not touch the network:

- **Encoder** (`encoder.dfy`): turns a `SavePageNowOptions` record into the
  ordered list of form fields that `savePageNow` appends. The encoding is
  sparse: a true flag becomes `"1"`, and a false or absent flag sends
  nothing. The list is proved equal to a separate declarative wire table
  (`Encoder.EncodeFollowsTable`), which has one rule per wire field,
  listed in wire order.
- **Transport** (`transport.dfy`): builds the `LOW <accessKey>:<secretKey>`
  authorization value and the two header sets. Submission sends the fixed
  headers plus authorization; the user-status query sends authorization
  only. It also builds the request each operation sends. A parser for the
  authorization value serves as its round-trip partner.
- **Normalizer** (`normalizer.dfy`): turns the four JSON response bodies
  into fixed records, one key at a time. Each record has a JSON form, and
  each normaliser is proved to be the projection of the body onto its key
  set. Re-normalising an output gives the same output back.
- **Client** (`client.dfy`): models `checkUrl` and the submission gate, and
  sequences each of the four operations. The probe outcome and the
  archive's reply are inputs. A call records which archive requests it
  sends and how its promise settles.
- `json.dfy` holds the parsed JSON value, the optional-chaining lookup
  `data?.key` and the projection. `wrappers.dfy` holds `Option`.

## Behaviour worth knowing

- **Credentials:** `captureTargetAuthorizations` defaults to `{}`. An empty
  object is truthy, so `target_username` and `target_password` are appended
  on every request, with `""` for a missing half. `{url, captureAll: true}`
  therefore encodes as four fields: `Encoder.CaptureAllExample`.
- **Response shapes:** whatever value sits under a response key is copied
  unchecked, and a JSON `null` stays `null`. So record fields are
  `Option<Json>`.
- **Freshness window:** `ifNotArchivedWithinBetween` is an array of any
  length joined with `","`; an empty array sends `""`.
- **Invalid URL:** `savePageNow` returns, rather than throws, the
  `Error('Invalid URL')` value when the probe status is not 200. A probe
  that throws makes `checkUrl` reject with `false`. The model keeps the
  three outcomes apart: `Resolved(InvalidUrl(..))`, `Rejected(ProbeFailed)`
  and `Rejected(TransportFailed)`.

## Model

| member | source | states |
|---|---|---|
| Encoder.BooleanParser | src/waybackmachine/index.ts:135-137 | yields `"1"` for `true` and nothing for `false`; never `"0"` |
| Encoder.Encode | src/waybackmachine/index.ts:218-264 | the body always starts with `("url", options.url)`, holds at least three fields and always ends with `target_username` then `target_password` |
| Encoder.EncodeFollowsTable | src/waybackmachine/index.ts:191-264 | the branch-by-branch encoder equals the declarative wire table: same fields, same values, same order |
| Encoder.EncodeOccurrences | src/waybackmachine/index.ts:220-264 | every wire field is sent at most once, with exactly the value its rule prescribes, and is sent exactly when the rule prescribes one |
| Encoder.EncodeOmitsOtherNames | src/waybackmachine/index.ts:218-264 | no name outside the fourteen wire fields is ever sent |
| Encoder.EncodeInWireOrder | src/waybackmachine/index.ts:220-264 | field names appear in the fixed order url, capture_all … target_password, so none repeats |
| Encoder.BooleanModifier | src/waybackmachine/index.ts:193-254 | each of the eight boolean modifiers sends exactly one `"1"` field when true and no field when false or absent |
| Encoder.NoZeroFlag | src/waybackmachine/index.ts:222-254 | the `\|\| '0'` fallbacks are unreachable: every boolean field sent is valued `"1"` |
| Encoder.FreshnessPrecedence | src/waybackmachine/index.ts:199-248 | at most one `if_not_archived_within`: the comma-joined array when the array form is present (`""` for an empty one), otherwise a non-empty single form verbatim, otherwise none |
| Encoder.Join | src/waybackmachine/index.ts:242 | `join(',')` sends `""` for the empty array and a single element as it is |
| Encoder.JoinShape | src/waybackmachine/index.ts:242 | a non-empty join starts with the first element, ends with the last, and is as long as the elements plus one separator between each adjacent pair |
| Encoder.SplitJoin | src/waybackmachine/index.ts:242 | the comma-joined freshness value cuts back into the supplied elements when the list is non-empty and none of them contains a comma (the empty array's `""` cuts into `[""]`) |
| Encoder.CookieField | src/waybackmachine/index.ts:255-257 | `capture_cookie` is sent, unchanged, exactly when the cookie option is a non-empty string |
| Encoder.UserAgentField | src/waybackmachine/index.ts:258-260 | `use_user_agent` is sent, unchanged, exactly when the user-agent option is a non-empty string |
| Encoder.CredentialsAlwaysLast | src/waybackmachine/index.ts:205-264 | the last two fields are always `target_username` and `target_password`, carrying the supplied value or `""`, including when no credential object was given |
| Encoder.CaptureAllExample | src/waybackmachine/index.ts:220-264 | `{url, captureAll: true}` encodes as url, `capture_all=1` and the two empty credential fields |
| Encoder.PartialCredentialsExample | src/waybackmachine/index.ts:261-264 | credentials `{username: "u"}` send `target_username=u` and an empty `target_password` |
| Transport.Authorization | src/waybackmachine/index.ts:215 | the value is `LOW `, the access key, a colon, then the secret key, each at its exact position |
| Transport.ParseAuthorizationSound | src/waybackmachine/index.ts:215 | any value the parser accepts is exactly the authorization value of the credentials it reads |
| Transport.AuthorizationRoundTrip | src/waybackmachine/index.ts:215 | the authorization value gives back the credential pair whenever the access key has no colon |
| Transport.SubmitHeaders | src/waybackmachine/index.ts:213-216 | the submission headers are the fixed headers plus `authorization`, which overrides any entry of that name; every other fixed header is kept |
| Transport.UserStatusHeaders | src/waybackmachine/index.ts:336-339 | the user-status headers hold the `authorization` key and nothing else |
| Transport.UserStatusOmitsFixedHeaders | src/waybackmachine/index.ts:336-339 | the user-status headers are the submission headers built over an empty fixed set, so no fixed header appears in them |
| Transport.SubmitRequest | src/waybackmachine/index.ts:207-266 | the submission is a POST to the submission endpoint, carrying the authorized headers and the encoded body |
| Transport.JobStatusRequest | src/waybackmachine/index.ts:278 | the job-status query is a GET to that job's status path, with no headers and no body |
| Transport.SystemStatusRequest | src/waybackmachine/index.ts:304 | the system-status query is a GET with no headers and no body |
| Transport.UserStatusRequest | src/waybackmachine/index.ts:330-341 | the user-status query is a GET whose only header is the authorization value |
| Json.Get | src/waybackmachine/index.ts:178 | `data?.key` is present exactly when the body is an object holding the key, and then it is that member's value |
| Json.GetIn | src/waybackmachine/index.ts:287 | `data?.outer?.key` is present exactly when both lookups succeed, and then it is the inner member's value |
| Normalizer.NormalizeSave | src/waybackmachine/index.ts:177-183 | the acknowledgment is the body projected onto its five keys: present keys keep their values, missing keys stay absent, extra keys are dropped |
| Normalizer.SaveRoundTrip | src/waybackmachine/index.ts:177-183 | re-normalising a serialised acknowledgment returns it unchanged |
| Normalizer.SaveExample | src/waybackmachine/index.ts:177-183 | a body with url, job_id and status keeps exactly those three and leaves message and status_ext absent |
| Normalizer.NormalizeStatus | src/waybackmachine/index.ts:280-294 | the job status is the body projected onto its nine flat keys plus a `counters` object: the body's counters object projected onto embeds and outlinks, empty when the body has none |
| Normalizer.StatusRoundTrip | src/waybackmachine/index.ts:280-294 | re-normalising a serialised job status returns it unchanged |
| Normalizer.StatusWithoutScreenshot | src/waybackmachine/index.ts:292 | a body without `screenshot` yields an absent screenshot rather than a failure |
| Normalizer.NormalizeSystem | src/waybackmachine/index.ts:306-319 | the system status is the body projected onto status and recent_captures plus a `queues` object: the body's queues object projected onto the nine queue names, empty when the body has none |
| Normalizer.SystemRoundTrip | src/waybackmachine/index.ts:306-319 | re-normalising a serialised system status returns it unchanged |
| Normalizer.NormalizeUser | src/waybackmachine/index.ts:343-348 | the user status is the body projected onto its four keys |
| Normalizer.UserRoundTrip | src/waybackmachine/index.ts:343-348 | re-normalising a serialised user status returns it unchanged |
| Normalizer.Member | src/waybackmachine/index.ts:287 | every two-step lookup under a key equals a one-step lookup in that key's value, or in `null` when the key is missing |
| Client.CheckUrl | src/waybackmachine/index.ts:139-153 | resolves true exactly for status 200 and false for any other status; a thrown probe rejects, which is distinct from false |
| Client.SavePageRequest | src/waybackmachine/index.ts:171-189 | sends exactly one request; a failed round trip rejects; a reply resolves to the projection of its body onto the acknowledgment keys |
| Client.SavePageNow | src/waybackmachine/index.ts:268-272 | the submission is sent exactly when the probe status is 200; any other status resolves to the "Invalid URL" value with nothing sent; a thrown probe rejects; after a 200 probe the call settles by the archive's reply |
| Client.SubmissionGate | src/waybackmachine/index.ts:139-153 | a submission is sent exactly when `checkUrl` resolves true; "Invalid URL" comes exactly when it resolves false; a probe rejection happens exactly when `checkUrl` rejects |
| Client.NotFoundExample | src/waybackmachine/index.ts:268-272 | a 404 probe resolves to "Invalid URL" and sends no request to the archive |
| Client.SavePageNowStatus | src/waybackmachine/index.ts:275-299 | sends one header-less GET; a failed round trip rejects; a reply resolves to the projected job status |
| Client.SystemStatus | src/waybackmachine/index.ts:301-325 | sends one header-less GET; a failed round trip rejects; a reply resolves to the projected system status |
| Client.UserStatus | src/waybackmachine/index.ts:327-353 | sends one GET whose only header is the authorization value; a failed round trip rejects; a reply resolves to the projected user status |

## Left out

- Network I/O is not modelled: `fetch`, `response.json()`, promises and `async`. Each round trip's outcome is a parameter (`Probe`, `Reply`).
- The probe's GET to the target URL is not listed among a call's sent requests. `sent` lists only requests to the archive, and the probe is an input.
- `URLSearchParams` percent-encoding is not modelled, because it is a library serialiser. The body stays an ordered list of name/value pairs.
- `constant.API_URL` and `constant.API_HEADERS` live in `src/waybackmachine/constant`, which is not part of this model. The headers are a client parameter. URLs appear only as an `Endpoint` value, with no string concatenation.
- `apiRequest` (src/waybackmachine/index.ts:155-169) is not modelled: no operation calls it.
- `console.error` logging is not modelled.
- The user-status request's `redirect: 'follow'` option is not modelled, because it is fetch's default anyway.
- `test.ts` is not modelled: it is a demo that calls the live service and has no logic of its own.
- Numbers in `ifNotArchivedWithinBetween` are modelled as the strings `join` renders them as; JavaScript's number-to-string conversion is not modelled.
- Boolean options are modelled only as absent, `true` or `false`, as the TypeScript types allow. Non-boolean truthy values that untyped callers might pass are not modelled.
- Header names are matched case-sensitively, as JavaScript object keys are. If `API_HEADERS` held an `Authorization` entry, `fetch` would merge it with `authorization` case-insensitively; that is not modelled.
- JSON numbers are reals and objects are maps. Duplicate keys are the parser's concern. No response key read here is a prototype property of strings or arrays, so a non-object body reads as all-absent.
