/** The client facade `SPN2Client`: the reachability gate in front of a
    capture submission, and the four operations sequencing encoder,
    transport and normalisers. Every network round trip is an input: the
    probe's outcome and the archive's reply are parameters, and a call
    records the archive requests it would send. */
module Client {
  import opened Wrappers
  import opened Json
  import Encoder
  import Transport
  import Normalizer

  /** What the reachability probe `fetch(url)` comes back with: an HTTP
      status, or a transport failure (DNS, refused connection, ...). */
  datatype Probe = ProbeStatus(code: int) | ProbeError

  /** What an archive round trip comes back with: the parsed JSON body, or
      a failure of `fetch` or of `response.json()`. */
  datatype Reply = Replied(data: Json) | TransportError

  /** Why a call's promise rejects: the probe failed (`checkUrl` rejects
      with `false`), or the archive round trip failed. */
  datatype Failure = ProbeFailed | TransportFailed

  /** A settled promise. */
  datatype Settled<T> = Resolved(value: T) | Rejected(reason: Failure)

  /** What `savePageNow` resolves with: the normalised acknowledgment, or
      the `Error('Invalid URL')` value it returns rather than throws. */
  datatype SaveResult =
    | Acknowledged(response: Normalizer.SavePageNowResponse)
    | InvalidUrl(message: string)

  /** A call: the archive requests it sends, in order, and how it settles. */
  datatype Call<T> = Call(sent: seq<Transport.Request>, result: Settled<T>)

  /** A client: the credential pair it was constructed with and the fixed
      header set the submission carries (`constant.API_HEADERS`, supplied
      from outside). */
  datatype SPN2Client = SPN2Client(credentials: Transport.Credentials, apiHeaders: Transport.Headers)

  const InvalidUrlMessage: string := "Invalid URL"

  /** `checkUrl`: true exactly for a 200 probe; any other status is false;
      a probe that throws rejects, which is not the same as false. */
  function CheckUrl(probe: Probe): (r: Settled<bool>)
    ensures r == Resolved(true) <==> probe == ProbeStatus(200)
    ensures r == Resolved(false) <==> probe.ProbeStatus? && probe.code != 200
    ensures r == Rejected(ProbeFailed) <==> probe == ProbeError
    ensures r != Rejected(TransportFailed)
  {
    match probe
    case ProbeStatus(code) => Resolved(code == 200)
    case ProbeError => Rejected(ProbeFailed)
  }

  /** `savePageRequest`: one POST, then the acknowledgment normalised from
      the body, or a rejection when the round trip fails. */
  function SavePageRequest(request: Transport.Request, reply: Reply): (c: Call<Normalizer.SavePageNowResponse>)
    ensures c.sent == [request]
    ensures c.result.Rejected? <==> reply.TransportError?
    ensures c.result.Rejected? ==> c.result.reason == TransportFailed
    ensures c.result.Resolved? ==>
      Normalizer.SaveToJson(c.result.value) == Project(reply.data, Normalizer.SaveKeys)
  {
    match reply
    case Replied(data) =>
      Call([request], Resolved(Normalizer.NormalizeSave(data)))
    case TransportError => Call([request], Rejected(TransportFailed))
  }

  /** `savePageNow`: encode, probe, and submit only after a 200 probe. */
  function SavePageNow(client: SPN2Client, o: Encoder.Options, probe: Probe, reply: Reply): (c: Call<SaveResult>)
    ensures |c.sent| <= 1
    ensures c.sent != [] <==> probe == ProbeStatus(200)
    ensures c.sent != [] ==> c.sent[0] == Transport.SubmitRequest(client.apiHeaders, client.credentials, o)
    ensures c.result == Resolved(InvalidUrl("Invalid URL")) <==> probe.ProbeStatus? && probe.code != 200
    ensures c.result == Rejected(ProbeFailed) <==> probe == ProbeError
    ensures c.result.Resolved? && c.result.value.Acknowledged? <==> probe == ProbeStatus(200) && reply.Replied?
    ensures c.result.Resolved? && c.result.value.Acknowledged? ==>
      Normalizer.SaveToJson(c.result.value.response) == Project(reply.data, Normalizer.SaveKeys)
    ensures c.result == Rejected(TransportFailed) <==> probe == ProbeStatus(200) && reply.TransportError?
  {
    var request := Transport.SubmitRequest(client.apiHeaders, client.credentials, o);
    match CheckUrl(probe)
    case Rejected(reason) => Call([], Rejected(reason))
    case Resolved(reachable) =>
      if reachable then
        var submitted := SavePageRequest(request, reply);
        Call(submitted.sent,
             match submitted.result
             case Resolved(response) => Resolved(Acknowledged(response))
             case Rejected(reason) => Rejected(reason))
      else
        Call([], Resolved(InvalidUrl(InvalidUrlMessage)))
  }

  /** The submission gate in `checkUrl`'s terms: a submission is sent
      exactly when the check resolves true; "Invalid URL" comes exactly
      when it resolves false; the call rejects for the probe exactly when
      the check rejects. */
  lemma SubmissionGate(client: SPN2Client, o: Encoder.Options, probe: Probe, reply: Reply)
    ensures var c := SavePageNow(client, o, probe, reply);
      && (c.sent != [] <==> CheckUrl(probe) == Resolved(true))
      && (c.result == Resolved(InvalidUrl(InvalidUrlMessage)) <==> CheckUrl(probe) == Resolved(false))
      && (c.result == Rejected(ProbeFailed) <==> CheckUrl(probe).Rejected?)
  {
  }

  /** `savePageNowStatus`: one header-less GET, then the normalised job
      status, or a rejection. */
  function SavePageNowStatus(jobId: string, reply: Reply): (c: Call<Normalizer.SavePageNowStatusResponse>)
    ensures c.sent == [Transport.JobStatusRequest(jobId)]
    ensures c.result.Rejected? <==> reply.TransportError?
    ensures c.result.Rejected? ==> c.result.reason == TransportFailed
    ensures c.result.Resolved? ==>
      Normalizer.StatusToJson(c.result.value)
      == Obj(Project(reply.data, Normalizer.StatusKeys).members
             ["counters" := Project(Normalizer.Member(reply.data, "counters"), Normalizer.CounterKeys)])
  {
    var request := Transport.JobStatusRequest(jobId);
    match reply
    case Replied(data) =>
      Call([request], Resolved(Normalizer.NormalizeStatus(data)))
    case TransportError => Call([request], Rejected(TransportFailed))
  }

  /** `systemStatus`: one header-less GET, then the normalised system
      status, or a rejection. */
  function SystemStatus(reply: Reply): (c: Call<Normalizer.SystemStatusResponse>)
    ensures c.sent == [Transport.SystemStatusRequest()]
    ensures c.result.Rejected? <==> reply.TransportError?
    ensures c.result.Rejected? ==> c.result.reason == TransportFailed
    ensures c.result.Resolved? ==>
      Normalizer.SystemToJson(c.result.value)
      == Obj(Project(reply.data, Normalizer.SystemKeys).members
             ["queues" := Project(Normalizer.Member(reply.data, "queues"), Normalizer.QueueKeys)])
  {
    var request := Transport.SystemStatusRequest();
    match reply
    case Replied(data) =>
      Call([request], Resolved(Normalizer.NormalizeSystem(data)))
    case TransportError => Call([request], Rejected(TransportFailed))
  }

  /** `userStatus`: one GET carrying only the authorization header, then
      the normalised user status, or a rejection. */
  function UserStatus(client: SPN2Client, reply: Reply): (c: Call<Normalizer.UserStatusResponse>)
    ensures c.sent == [Transport.UserStatusRequest(client.credentials)]
    ensures c.sent[0].headers.Keys == {Transport.AuthorizationHeader}
    ensures c.result.Rejected? <==> reply.TransportError?
    ensures c.result.Rejected? ==> c.result.reason == TransportFailed
    ensures c.result.Resolved? ==>
      Normalizer.UserToJson(c.result.value) == Project(reply.data, Normalizer.UserKeys)
  {
    var request := Transport.UserStatusRequest(client.credentials);
    match reply
    case Replied(data) =>
      Call([request], Resolved(Normalizer.NormalizeUser(data)))
    case TransportError => Call([request], Rejected(TransportFailed))
  }

  /** A 404 probe ends `savePageNow` with "Invalid URL" and no request to
      the archive. */
  lemma NotFoundExample(client: SPN2Client, o: Encoder.Options, reply: Reply)
    ensures SavePageNow(client, o, ProbeStatus(404), reply) == Call([], Resolved(InvalidUrl("Invalid URL")))
  {
  }
}
