/** The response normalisers of `SPN2Client`: each untrusted JSON body is
    read key by key into a fixed record. A missing key gives an absent
    field; whatever value sits under a present key is passed through
    unchecked; every other key is dropped. Each record also has its JSON
    form, the object JavaScript serialises it to (a property holding
    `undefined` is not written), which is the partner the normalisers are
    proved against. */
module Normalizer {
  import opened Wrappers
  import opened Json

  /** The value under `key`, or `null` when there is none: what the second
      step of `data?.key?.inner` is applied to. */
  function Member(data: Json, key: string): (v: Json)
    ensures forall inner :: GetIn(data, key, inner) == Get(v, inner)
  {
    Get(data, key).GetOr(Null)
  }

  /* ---------------------------------------------------------------------
     Submission acknowledgment (`savePageRequest`)
     --------------------------------------------------------------------- */

  /** `SavePageNowResponse`. */
  datatype SavePageNowResponse = SavePageNowResponse(
    url: Option<Json>,
    jobId: Option<Json>,
    message: Option<Json>,
    status: Option<Json>,
    statusExt: Option<Json>)

  const SaveKeys: set<string> := {"url", "job_id", "message", "status", "status_ext"}

  /** The acknowledgment is the body projected onto its five keys: present
      keys keep their values, missing keys stay missing, other keys go. */
  function NormalizeSave(data: Json): (r: SavePageNowResponse)
    ensures SaveToJson(r) == Project(data, SaveKeys)
  {
    SavePageNowResponse(
      Get(data, "url"),
      Get(data, "job_id"),
      Get(data, "message"),
      Get(data, "status"),
      Get(data, "status_ext"))
  }

  /** A `SavePageNowResponse` read as an object: its property `key`. */
  function SaveField(r: SavePageNowResponse, key: string): Option<Json> {
    match key
    case "url" => r.url
    case "job_id" => r.jobId
    case "message" => r.message
    case "status" => r.status
    case "status_ext" => r.statusExt
    case _ => None
  }

  /** The JSON object a `SavePageNowResponse` serialises to. */
  function SaveToJson(r: SavePageNowResponse): Json {
    Obj(map k | k in SaveKeys && SaveField(r, k).Some? :: SaveField(r, k).value)
  }

  /** Normalising a serialised acknowledgment gives it back unchanged, so
      normalising twice is normalising once. */
  lemma SaveRoundTrip(r: SavePageNowResponse)
    ensures NormalizeSave(SaveToJson(r)) == r
  {
  }

  /** `{"url":"https://a","job_id":"spn2-abc","status":"success"}` keeps
      exactly those three fields; `message` and `status_ext` stay absent. */
  lemma SaveExample()
    ensures NormalizeSave(Obj(map["url" := Str("https://a"), "job_id" := Str("spn2-abc"), "status" := Str("success")]))
         == SavePageNowResponse(Some(Str("https://a")), Some(Str("spn2-abc")), None, Some(Str("success")), None)
  {
  }

  /* ---------------------------------------------------------------------
     Job status (`savePageNowStatus`)
     --------------------------------------------------------------------- */

  /** The nested `counters` object. */
  datatype Counters = Counters(embeds: Option<Json>, outlinks: Option<Json>)

  /** `SavePageNowStatusResponse`. `outlinks` may be an object or an array
      on the wire; either is passed through. */
  datatype SavePageNowStatusResponse = SavePageNowStatusResponse(
    jobId: Option<Json>,
    status: Option<Json>,
    httpStatus: Option<Json>,
    originalUrl: Option<Json>,
    durationSec: Option<Json>,
    counters: Counters,
    outlinks: Option<Json>,
    resources: Option<Json>,
    screenshot: Option<Json>,
    timestamp: Option<Json>)

  /** The top-level keys copied as they are; `counters` is rebuilt. */
  const StatusKeys: set<string> := {
    "job_id", "status", "http_status", "original_url", "duration_sec",
    "outlinks", "resources", "screenshot", "timestamp"}

  const CounterKeys: set<string> := {"embeds", "outlinks"}

  /** The job status is the body projected onto its nine flat keys, plus a
      `counters` object rebuilt from the body's own: that object projected
      onto its two keys, and empty when the body has none. */
  function NormalizeStatus(data: Json): (r: SavePageNowStatusResponse)
    ensures CountersToJson(r.counters) == Project(Member(data, "counters"), CounterKeys)
    ensures StatusToJson(r)
         == Obj(Project(data, StatusKeys).members["counters" := Project(Member(data, "counters"), CounterKeys)])
  {
    var counters := Counters(GetIn(data, "counters", "embeds"), GetIn(data, "counters", "outlinks"));
    CountersFromFields(Member(data, "counters"), counters);
    var r := SavePageNowStatusResponse(
      Get(data, "job_id"),
      Get(data, "status"),
      Get(data, "http_status"),
      Get(data, "original_url"),
      Get(data, "duration_sec"),
      counters,
      Get(data, "outlinks"),
      Get(data, "resources"),
      Get(data, "screenshot"),
      Get(data, "timestamp"));
    StatusFromFields(data, r);
    r
  }

  function CounterField(c: Counters, key: string): Option<Json> {
    match key
    case "embeds" => c.embeds
    case "outlinks" => c.outlinks
    case _ => None
  }

  function CountersToJson(c: Counters): Json {
    Obj(map k | k in CounterKeys && CounterField(c, k).Some? :: CounterField(c, k).value)
  }

  /** A `SavePageNowStatusResponse` read as an object: its flat property
      `key` (the `counters` object aside). */
  function StatusField(r: SavePageNowStatusResponse, key: string): Option<Json> {
    match key
    case "job_id" => r.jobId
    case "status" => r.status
    case "http_status" => r.httpStatus
    case "original_url" => r.originalUrl
    case "duration_sec" => r.durationSec
    case "outlinks" => r.outlinks
    case "resources" => r.resources
    case "screenshot" => r.screenshot
    case "timestamp" => r.timestamp
    case _ => None
  }

  /** The JSON object a `SavePageNowStatusResponse` serialises to; the
      `counters` object is always there, possibly empty. */
  function StatusToJson(r: SavePageNowStatusResponse): Json {
    Obj((map k | k in StatusKeys && StatusField(r, k).Some? :: StatusField(r, k).value)
        ["counters" := CountersToJson(r.counters)])
  }

  /** Counters whose two fields are the lookups in `inner` serialise to
      `inner` projected onto the two counter keys. */
  lemma CountersFromFields(inner: Json, c: Counters)
    requires c.embeds == Get(inner, "embeds") && c.outlinks == Get(inner, "outlinks")
    ensures CountersToJson(c) == Project(inner, CounterKeys)
  {
    assert forall k :: k in CounterKeys ==> CounterField(c, k) == Get(inner, k);
  }

  /** A job status whose flat fields are the lookups in `data` serialises
      to `data` projected onto the flat keys, plus its counters object. */
  lemma StatusFromFields(data: Json, r: SavePageNowStatusResponse)
    requires r.jobId == Get(data, "job_id") && r.status == Get(data, "status")
    requires r.httpStatus == Get(data, "http_status") && r.originalUrl == Get(data, "original_url")
    requires r.durationSec == Get(data, "duration_sec") && r.outlinks == Get(data, "outlinks")
    requires r.resources == Get(data, "resources") && r.screenshot == Get(data, "screenshot")
    requires r.timestamp == Get(data, "timestamp")
    ensures StatusToJson(r) == Obj(Project(data, StatusKeys).members["counters" := CountersToJson(r.counters)])
  {
    assert forall k :: k in StatusKeys ==> StatusField(r, k) == Get(data, k);
  }

  /** Normalising a serialised job status gives it back unchanged. */
  lemma StatusRoundTrip(r: SavePageNowStatusResponse)
    ensures NormalizeStatus(StatusToJson(r)) == r
  {
  }

  /** A body without `screenshot` yields an absent screenshot and no
      failure; the other fields are read as usual. */
  lemma StatusWithoutScreenshot(data: Json)
    requires Get(data, "screenshot").None?
    ensures NormalizeStatus(data).screenshot.None?
    ensures "screenshot" !in StatusToJson(NormalizeStatus(data)).members
  {
  }

  /* ---------------------------------------------------------------------
     System status (`systemStatus`)
     --------------------------------------------------------------------- */

  /** `SystemStatusResponseQueues`: the nine named queue depths. */
  datatype SystemStatusResponseQueues = SystemStatusResponseQueues(
    api: Option<Json>,
    apiMisc: Option<Json>,
    apiOutlink: Option<Json>,
    apiOutlinkMisc: Option<Json>,
    highFidelity: Option<Json>,
    main: Option<Json>,
    mainMisc: Option<Json>,
    mainOutlink: Option<Json>,
    mainOutlinkMisc: Option<Json>)

  /** `SystemStatusResponse`. */
  datatype SystemStatusResponse = SystemStatusResponse(
    status: Option<Json>,
    recentCaptures: Option<Json>,
    queues: SystemStatusResponseQueues)

  const SystemKeys: set<string> := {"status", "recent_captures"}

  const QueueKeys: set<string> := {
    "api", "api_misc", "api_outlink", "api_outlink_misc", "high_fidelity",
    "main", "main_misc", "main_outlink", "main_outlink_misc"}

  /** The system status is the body projected onto its two flat keys, plus
      a `queues` object rebuilt from the body's own: that object projected
      onto the nine queue names, and empty when the body has none. */
  function NormalizeSystem(data: Json): (r: SystemStatusResponse)
    ensures QueuesToJson(r.queues) == Project(Member(data, "queues"), QueueKeys)
    ensures SystemToJson(r)
         == Obj(Project(data, SystemKeys).members["queues" := Project(Member(data, "queues"), QueueKeys)])
  {
    var queues := SystemStatusResponseQueues(
      GetIn(data, "queues", "api"),
      GetIn(data, "queues", "api_misc"),
      GetIn(data, "queues", "api_outlink"),
      GetIn(data, "queues", "api_outlink_misc"),
      GetIn(data, "queues", "high_fidelity"),
      GetIn(data, "queues", "main"),
      GetIn(data, "queues", "main_misc"),
      GetIn(data, "queues", "main_outlink"),
      GetIn(data, "queues", "main_outlink_misc"));
    QueuesFromFields(Member(data, "queues"), queues);
    var r := SystemStatusResponse(Get(data, "status"), Get(data, "recent_captures"), queues);
    SystemFromFields(data, r);
    r
  }

  function QueueField(q: SystemStatusResponseQueues, key: string): Option<Json> {
    match key
    case "api" => q.api
    case "api_misc" => q.apiMisc
    case "api_outlink" => q.apiOutlink
    case "api_outlink_misc" => q.apiOutlinkMisc
    case "high_fidelity" => q.highFidelity
    case "main" => q.main
    case "main_misc" => q.mainMisc
    case "main_outlink" => q.mainOutlink
    case "main_outlink_misc" => q.mainOutlinkMisc
    case _ => None
  }

  function QueuesToJson(q: SystemStatusResponseQueues): Json {
    Obj(map k | k in QueueKeys && QueueField(q, k).Some? :: QueueField(q, k).value)
  }

  /** Queues whose nine fields are the lookups in `inner` serialise to
      `inner` projected onto the nine queue names. */
  lemma QueuesFromFields(inner: Json, q: SystemStatusResponseQueues)
    requires q.api == Get(inner, "api") && q.apiMisc == Get(inner, "api_misc")
    requires q.apiOutlink == Get(inner, "api_outlink") && q.apiOutlinkMisc == Get(inner, "api_outlink_misc")
    requires q.highFidelity == Get(inner, "high_fidelity") && q.main == Get(inner, "main")
    requires q.mainMisc == Get(inner, "main_misc") && q.mainOutlink == Get(inner, "main_outlink")
    requires q.mainOutlinkMisc == Get(inner, "main_outlink_misc")
    ensures QueuesToJson(q) == Project(inner, QueueKeys)
  {
    assert forall k :: k in QueueKeys ==> QueueField(q, k) == Get(inner, k);
  }

  function SystemField(r: SystemStatusResponse, key: string): Option<Json> {
    match key
    case "status" => r.status
    case "recent_captures" => r.recentCaptures
    case _ => None
  }

  /** The JSON object a `SystemStatusResponse` serialises to; the `queues`
      object is always there, possibly empty. */
  function SystemToJson(r: SystemStatusResponse): Json {
    Obj((map k | k in SystemKeys && SystemField(r, k).Some? :: SystemField(r, k).value)
        ["queues" := QueuesToJson(r.queues)])
  }

  /** A system status whose two flat fields are the lookups in `data`
      serialises to `data` projected onto those keys, plus its queues. */
  lemma SystemFromFields(data: Json, r: SystemStatusResponse)
    requires r.status == Get(data, "status") && r.recentCaptures == Get(data, "recent_captures")
    ensures SystemToJson(r) == Obj(Project(data, SystemKeys).members["queues" := QueuesToJson(r.queues)])
  {
    assert forall k :: k in SystemKeys ==> SystemField(r, k) == Get(data, k);
  }

  /** Normalising a serialised system status gives it back unchanged. */
  lemma SystemRoundTrip(r: SystemStatusResponse)
    ensures NormalizeSystem(SystemToJson(r)) == r
  {
  }

  /* ---------------------------------------------------------------------
     User status (`userStatus`)
     --------------------------------------------------------------------- */

  /** `UserStatusResponse`. */
  datatype UserStatusResponse = UserStatusResponse(
    available: Option<Json>,
    processing: Option<Json>,
    dailyCaptures: Option<Json>,
    dailyCapturesLimit: Option<Json>)

  const UserKeys: set<string> := {"available", "processing", "daily_captures", "daily_captures_limit"}

  /** The user status is the body projected onto its four keys. */
  function NormalizeUser(data: Json): (r: UserStatusResponse)
    ensures UserToJson(r) == Project(data, UserKeys)
  {
    UserStatusResponse(
      Get(data, "available"),
      Get(data, "processing"),
      Get(data, "daily_captures"),
      Get(data, "daily_captures_limit"))
  }

  function UserField(r: UserStatusResponse, key: string): Option<Json> {
    match key
    case "available" => r.available
    case "processing" => r.processing
    case "daily_captures" => r.dailyCaptures
    case "daily_captures_limit" => r.dailyCapturesLimit
    case _ => None
  }

  /** The JSON object a `UserStatusResponse` serialises to. */
  function UserToJson(r: UserStatusResponse): Json {
    Obj(map k | k in UserKeys && UserField(r, k).Some? :: UserField(r, k).value)
  }

  /** Normalising a serialised user status gives it back unchanged. */
  lemma UserRoundTrip(r: UserStatusResponse)
    ensures NormalizeUser(UserToJson(r)) == r
  {
  }
}
