/** The authenticated transport of `SPN2Client`: the `LOW` authorization
    header, the header sets of the submission and user-status requests, and
    the requests themselves. Sending them is I/O and is not modelled. */
module Transport {
  import opened Wrappers
  import Encoder

  /** The access key / secret key pair fixed at client construction. */
  datatype Credentials = Credentials(accessKey: string, secretKey: string)

  /** Header maps keyed by property name, as the JavaScript header objects. */
  type Headers = map<string, string>

  /** The header name the client writes its credentials under. */
  const AuthorizationHeader: string := "authorization"

  /** The scheme prefix of the authorization value. */
  const LowScheme: string := "LOW "

  /** `LOW ${accessKey}:${secretKey}`. */
  function Authorization(c: Credentials): (v: string)
    ensures |v| == |LowScheme| + |c.accessKey| + 1 + |c.secretKey|
    ensures v[..|LowScheme|] == LowScheme
    ensures v[|LowScheme| + |c.accessKey|] == ':'
    ensures v[|LowScheme|..|LowScheme| + |c.accessKey|] == c.accessKey
    ensures v[|LowScheme| + |c.accessKey| + 1..] == c.secretKey
  {
    LowScheme + c.accessKey + ":" + c.secretKey
  }

  /** The position of the first `ch` in `s`, if any. */
  function FirstIndex(s: string, ch: char): (r: Option<nat>)
    ensures r.None? <==> ch !in s
    ensures r.Some? ==> r.value < |s| && s[r.value] == ch && ch !in s[..r.value]
  {
    if |s| == 0 then None
    else if s[0] == ch then Some(0)
    else
      match FirstIndex(s[1..], ch)
      case None => None
      case Some(i) =>
        assert s[..i + 1] == [s[0]] + s[1..][..i];
        Some(i + 1)
  }

  /** The first `ch` after a prefix free of `ch` is the one right after it. */
  lemma {:induction false} FirstIndexAfterPrefix(a: string, ch: char, tail: string)
    requires ch !in a
    ensures FirstIndex(a + [ch] + tail, ch) == Some(|a|)
  {
    var s := a + [ch] + tail;
    if |a| > 0 {
      assert s[0] == a[0] && a[0] != ch;
      assert s[1..] == a[1..] + [ch] + tail;
      FirstIndexAfterPrefix(a[1..], ch, tail);
    }
  }

  /** Reads credentials back out of an authorization value: the `LOW `
      scheme, then the access key up to the first colon, then the secret
      key. The inverse of `Authorization`, its round-trip partner. */
  function ParseAuthorization(v: string): Option<Credentials> {
    if |v| < |LowScheme| || v[..|LowScheme|] != LowScheme then None
    else
      var rest := v[|LowScheme|..];
      match FirstIndex(rest, ':')
      case None => None
      case Some(i) => Some(Credentials(rest[..i], rest[i + 1..]))
  }

  /** Whatever the parser accepts is exactly the authorization value of the
      credentials it reads. */
  lemma ParseAuthorizationSound(v: string)
    ensures ParseAuthorization(v).Some? ==> Authorization(ParseAuthorization(v).value) == v
    ensures ParseAuthorization(v).Some? ==> ':' !in ParseAuthorization(v).value.accessKey
  {
  }

  /** The authorization value identifies the credentials whenever the
      access key has no colon (the secret key may hold any text). */
  lemma AuthorizationRoundTrip(c: Credentials)
    requires ':' !in c.accessKey
    ensures ParseAuthorization(Authorization(c)) == Some(c)
  {
    var v := Authorization(c);
    var rest := v[|LowScheme|..];
    assert rest == c.accessKey + [':'] + c.secretKey;
    FirstIndexAfterPrefix(c.accessKey, ':', c.secretKey);
    assert rest[..|c.accessKey|] == c.accessKey;
    assert rest[|c.accessKey| + 1..] == c.secretKey;
  }

  /** The submission headers: the fixed set `{...API_HEADERS}` with the
      authorization value written over any entry of the same name. */
  function SubmitHeaders(fixed: Headers, c: Credentials): (h: Headers)
    ensures h.Keys == fixed.Keys + {AuthorizationHeader}
    ensures h[AuthorizationHeader] == LowScheme + c.accessKey + ":" + c.secretKey
    ensures forall k :: k in fixed && k != AuthorizationHeader ==> h[k] == fixed[k]
  {
    fixed[AuthorizationHeader := Authorization(c)]
  }

  /** The user-status headers: the authorization value only. */
  function UserStatusHeaders(c: Credentials): (h: Headers)
    ensures h.Keys == {AuthorizationHeader}
    ensures h[AuthorizationHeader] == LowScheme + c.accessKey + ":" + c.secretKey
  {
    map[AuthorizationHeader := Authorization(c)]
  }

  /** The user-status headers are the submission headers over an empty
      fixed set: the only difference is the fixed set left out. */
  lemma UserStatusOmitsFixedHeaders(fixed: Headers, c: Credentials)
    ensures UserStatusHeaders(c) == SubmitHeaders(map[], c)
    ensures forall k :: k in fixed && k != AuthorizationHeader ==> k !in UserStatusHeaders(c)
  {
  }

  datatype Method = Get | Post

  /** Where a request goes: the submission endpoint or one of its status
      paths. The URL text is not modelled. */
  datatype Endpoint = Submit | JobStatus(jobId: string) | SystemStatus | UserStatus

  /** An outbound request to the archive. Requests without a body carry an
      empty field list. */
  datatype Request = Request(
    verb: Method,
    endpoint: Endpoint,
    headers: Headers,
    body: seq<Encoder.Field>)

  /** The capture submission of `savePageNow`. */
  function SubmitRequest(fixed: Headers, c: Credentials, o: Encoder.Options): (r: Request)
    ensures r.verb == Post && r.endpoint == Submit
    ensures r.headers.Keys == fixed.Keys + {AuthorizationHeader}
    ensures r.headers[AuthorizationHeader] == LowScheme + c.accessKey + ":" + c.secretKey
    ensures forall k :: k in fixed && k != AuthorizationHeader ==> r.headers[k] == fixed[k]
    ensures r.body == Encoder.Encode(o)
  {
    Request(Post, Submit, SubmitHeaders(fixed, c), Encoder.Encode(o))
  }

  /** The job-status query: no headers at all. */
  function JobStatusRequest(jobId: string): (r: Request)
    ensures r.verb == Get && r.endpoint.JobStatus? && r.endpoint.jobId == jobId
    ensures r.headers == map[] && r.body == []
  {
    Request(Get, JobStatus(jobId), map[], [])
  }

  /** The system-status query: no headers at all. */
  function SystemStatusRequest(): (r: Request)
    ensures r.verb == Get && r.endpoint == SystemStatus
    ensures r.headers == map[] && r.body == []
  {
    Request(Get, SystemStatus, map[], [])
  }

  /** The user-status query: the authorization header and nothing else. */
  function UserStatusRequest(c: Credentials): (r: Request)
    ensures r.verb == Get && r.endpoint == UserStatus
    ensures r.headers.Keys == {AuthorizationHeader}
    ensures r.headers[AuthorizationHeader] == LowScheme + c.accessKey + ":" + c.secretKey
    ensures r.body == []
  {
    Request(Get, UserStatus, UserStatusHeaders(c), [])
  }
}
