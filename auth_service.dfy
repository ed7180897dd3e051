/** The credential validator: its configuration read once at construction, the
    choice of the key to check, the authenticated probe it sends and how the
    probe's outcome becomes a boolean. */
module AuthService {
  import opened Js

  /** The two fields of an AuthService object; they never change after the
      constructor. */
  datatype Service = Service(apiUrl: string, apiKey: string)

  const MissingUrlMessage: string := "PERFEX_API_URL must be set in environment variables"

  /** `new AuthService()`: an object, or the error the constructor throws. */
  datatype Construction = Constructed(service: Service) | ConstructionFailed(message: string)

  /** The constructor, given the values of PERFEX_API_URL and PERFEX_API_KEY
      (`None` when unset). Each is taken `|| ''`; an empty URL throws. */
  function Construct(apiUrlEnv: Option<string>, apiKeyEnv: Option<string>): (r: Construction)
    ensures r.ConstructionFailed? <==> apiUrlEnv == None || apiUrlEnv == Some("")
    ensures r.ConstructionFailed? ==> r.message == MissingUrlMessage
    ensures r.Constructed? ==> r.service.apiUrl == apiUrlEnv.value && r.service.apiUrl != ""
    ensures r.Constructed? ==> r.service.apiKey == (if apiKeyEnv.Some? then apiKeyEnv.value else "")
  {
    var apiUrl := OrElse(apiUrlEnv, "");
    var apiKey := OrElse(apiKeyEnv, "");
    if apiUrl == "" then ConstructionFailed(MissingUrlMessage) else Constructed(Service(apiUrl, apiKey))
  }

  // -----------------------------------------------------------------------
  // Headers

  /** Request headers in the order the source writes them. */
  type Headers = seq<(string, string)>

  /** The first value given for a header name. */
  function Header(h: Headers, name: string): Option<string>
    decreases |h|
  {
    if h == [] then None else if h[0].0 == name then Some(h[0].1) else Header(h[1..], name)
  }

  const BearerPrefix: string := "Bearer "

  /** `Authorization: Bearer <key>` and `Content-Type: application/json`. */
  function BearerHeaders(key: string): (h: Headers)
    ensures Header(h, "Authorization") == Some(BearerPrefix + key)
    ensures Header(h, "Content-Type") == Some("application/json")
  {
    [("Authorization", BearerPrefix + key), ("Content-Type", "application/json")]
  }

  /** The key carried by an `Authorization` value of the bearer form. */
  function BearerToken(value: string): Option<string> {
    if |value| >= |BearerPrefix| && value[..|BearerPrefix|] == BearerPrefix
    then Some(value[|BearerPrefix|..]) else None
  }

  /** The key can be read back from the header value; hence different keys
      give different header values. */
  lemma BearerRoundTrip(key: string)
    ensures BearerToken(BearerPrefix + key) == Some(key)
  {
    var v := BearerPrefix + key;
    assert v[..|BearerPrefix|] == BearerPrefix;
    assert v[|BearerPrefix|..] == key;
  }

  /** `getAuthHeaders()`: always the configured key. */
  function GetAuthHeaders(s: Service): (h: Headers)
    ensures Header(h, "Authorization") == Some(BearerPrefix + s.apiKey)
    ensures Header(h, "Content-Type") == Some("application/json")
  {
    BearerHeaders(s.apiKey)
  }

  // -----------------------------------------------------------------------
  // validateApiKey

  /** The `GET` the validator sends. */
  datatype HttpGet = HttpGet(url: string, headers: Headers)

  /** What the HTTP client reports: a response with its status, or a failure
      (network error, or a status the client rejects). */
  datatype ProbeOutcome = Response(status: int) | Failure

  /** The boolean `validateApiKey` resolves to, and the probe it sent, if any. */
  datatype Validation = Validation(valid: bool, request: Option<HttpGet>)

  /** `apiKey || this.apiKey`. */
  function EffectiveKey(s: Service, candidate: Option<string>): (key: string)
    ensures candidate.Some? && candidate.value != "" ==> key == candidate.value
    ensures candidate.None? || candidate == Some("") ==> key == s.apiKey
  {
    OrElse(candidate, s.apiKey)
  }

  function ProbeUrl(s: Service): string {
    s.apiUrl + "/authentication"
  }

  /** `validateApiKey(apiKey?)` with the HTTP client as `probe`. With no key it
      sends nothing and resolves to false; otherwise it sends one GET to
      `<apiUrl>/authentication` with the bearer header of the key and resolves
      to true exactly on status 200. It never rejects. */
  function ValidateApiKey(s: Service, candidate: Option<string>, probe: HttpGet -> ProbeOutcome): (r: Validation)
    ensures r.request.None? <==> EffectiveKey(s, candidate) == ""
    ensures r.request.Some? ==> r.request.value.url == ProbeUrl(s)
    ensures r.request.Some? ==> Header(r.request.value.headers, "Authorization") == Some(BearerPrefix + EffectiveKey(s, candidate))
    ensures r.request.Some? ==> Header(r.request.value.headers, "Content-Type") == Some("application/json")
    ensures r.valid <==> r.request.Some? && probe(r.request.value) == Response(200)
  {
    var key := EffectiveKey(s, candidate);
    if key == "" then Validation(false, None)
    else
      var request := HttpGet(ProbeUrl(s), BearerHeaders(key));
      match probe(request)
      case Response(status) => Validation(status == 200, Some(request))
      case Failure => Validation(false, Some(request))
  }

  /** An empty candidate is the same as none: both check the configured key. */
  lemma EmptyCandidateIsDefault(s: Service, probe: HttpGet -> ProbeOutcome)
    ensures ValidateApiKey(s, Some(""), probe) == ValidateApiKey(s, None, probe)
  {
  }

  /** With no key at all the answer is false, whatever the remote would say. */
  lemma NoKeyIsInvalid(s: Service, candidate: Option<string>, probe: HttpGet -> ProbeOutcome)
    requires s.apiKey == "" && (candidate.None? || candidate == Some(""))
    ensures ValidateApiKey(s, candidate, probe) == Validation(false, None)
  {
  }

  /** Any outcome but status 200, failures included, gives false. */
  lemma OnlyStatus200IsValid(s: Service, candidate: Option<string>, probe: HttpGet -> ProbeOutcome)
    requires EffectiveKey(s, candidate) != ""
    ensures var r := ValidateApiKey(s, candidate, probe);
      r.valid <==> probe(HttpGet(ProbeUrl(s), BearerHeaders(EffectiveKey(s, candidate)))) == Response(200)
  {
  }

  /** A non-empty candidate other than the configured key is what the probe
      carries, while `getAuthHeaders` keeps carrying the configured key. */
  lemma AuthHeadersIgnoreCandidate(s: Service, candidate: string, probe: HttpGet -> ProbeOutcome)
    requires candidate != "" && candidate != s.apiKey
    ensures var r := ValidateApiKey(s, Some(candidate), probe);
      r.request.Some? && Header(r.request.value.headers, "Authorization") != Header(GetAuthHeaders(s), "Authorization")
  {
    BearerRoundTrip(candidate);
    BearerRoundTrip(s.apiKey);
  }
}
