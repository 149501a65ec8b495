/**
 * The Cloudflare client of the updater: listing the managed DNS records of a
 * zone and patching each of them with a new address, one after the other,
 * stopping at the first failure.
 *
 * Every HTTP exchange is replaced by its outcome, supplied by the caller: the
 * stage at which it failed (building the request, the transport, reading the
 * body, decoding the JSON) or the decoded response envelope.
 */
module Cloudflare {
  import opened Wrappers
  import GoText

  // ---------------------------------------------------------------------------
  // Data model
  // ---------------------------------------------------------------------------

  /** The fields of a provider DNS record the updater reads; the others pass through unused. */
  datatype DnsRecord = DnsRecord(id: string, name: string, content: string)

  /** The service value: the zone, the bearer token and the comment filter, never changed after creation. */
  datatype CloudflareService = CloudflareService(zoneIdentifier: string, authKey: string, filter: string)

  /** The JSON body of a PATCH: `{"content": <ip>}`. */
  datatype UpdateDnsRecordBody = UpdateDnsRecordBody(content: string)

  /** The envelope the record-listing endpoint answers with (pagination data dropped). */
  datatype GetDnsApiResponse =
    GetDnsApiResponse(errors: seq<string>, messages: seq<string>, result: seq<DnsRecord>, success: bool)

  /** The envelope the record-update endpoint answers with. */
  datatype UpdateDnsRecordResponse =
    UpdateDnsRecordResponse(success: bool, errors: seq<string>, result: UpdateDnsRecordBody)

  datatype Verb = Get | Patch

  /** A request the client issues to the provider; headers are not modelled. */
  datatype HttpRequest = HttpRequest(verb: Verb, url: string, body: Option<UpdateDnsRecordBody>)

  /**
   * How one request/response exchange went: the first stage that failed, with
   * the text of Go's error, or the decoded response.
   */
  datatype Exchange<T> =
    | RequestNotBuilt(cause: string)
    | TransportFailed(cause: string)
    | BodyUnreadable(cause: string)
    | Undecodable(cause: string)
    | Decoded(response: T)

  /**
   * The outcome of one per-record update: marshalling the body can fail before
   * any exchange. The body is a struct with a single string field, which
   * `json.Marshal` always encodes, so the program never takes that branch;
   * it is kept because the code checks for it.
   */
  datatype PatchOutcome =
    | MarshalFailed(cause: string)
    | Exchanged(exchange: Exchange<UpdateDnsRecordResponse>)

  /**
   * What `GetDnsRecords` returns: the record slice and the error (`None` for
   * nil), together with the request it handed to the HTTP client, if any.
   */
  datatype Listing = Listing(records: seq<DnsRecord>, err: Option<string>, sent: seq<HttpRequest>)

  /** What `UpdateDnsRecord` returns, together with the PATCH requests it handed to the HTTP client, in order. */
  datatype UpdateRun = UpdateRun(err: Option<string>, sent: seq<HttpRequest>)

  const ZONES_ENDPOINT := "https://api.cloudflare.com/client/v4/zones/"
  const RECORDS_PATH := "/dns_records/"
  const LIST_QUERY := "/dns_records?comment.contains="

  // ---------------------------------------------------------------------------
  // Construction
  // ---------------------------------------------------------------------------

  /** `NewCloudflareService`: the three arguments are kept as they are. */
  function NewCloudflareService(zoneIdentifier: string, authKeys: string, filter: string): (s: CloudflareService)
    ensures s.zoneIdentifier == zoneIdentifier
    ensures s.authKey == authKeys
    ensures s.filter == filter
  {
    CloudflareService(zoneIdentifier, authKeys, filter)
  }

  // ---------------------------------------------------------------------------
  // URLs
  // ---------------------------------------------------------------------------

  /** The URL of the listing request: the zone, then the filter as the `comment.contains` argument. */
  function ListRecordsUrl(s: CloudflareService): string
  {
    ZONES_ENDPOINT + s.zoneIdentifier + LIST_QUERY + s.filter
  }

  /** The URL of a record's PATCH request. */
  function RecordUrl(s: CloudflareService, record: DnsRecord): string
  {
    ZONES_ENDPOINT + s.zoneIdentifier + RECORDS_PATH + record.id
  }

  /** Reads a record identifier back from a URL of the given zone, if it is a record URL. */
  function RecordIdOf(zoneIdentifier: string, url: string): Option<string>
  {
    var prefix := ZONES_ENDPOINT + zoneIdentifier + RECORDS_PATH;
    if |prefix| <= |url| && url[..|prefix|] == prefix then Some(url[|prefix|..]) else None
  }

  /** Reads the filter back from a listing URL of the given zone, if it is one. */
  function FilterOf(zoneIdentifier: string, url: string): Option<string>
  {
    var prefix := ZONES_ENDPOINT + zoneIdentifier + LIST_QUERY;
    if |prefix| <= |url| && url[..|prefix|] == prefix then Some(url[|prefix|..]) else None
  }

  /** The listing URL carries the service's filter and is never read as a record URL. */
  lemma {:induction false} ListRecordsUrlRoundTrip(s: CloudflareService)
    ensures FilterOf(s.zoneIdentifier, ListRecordsUrl(s)) == Some(s.filter)
    ensures RecordIdOf(s.zoneIdentifier, ListRecordsUrl(s)).None?
  {
    var url := ListRecordsUrl(s);
    var listPrefix := ZONES_ENDPOINT + s.zoneIdentifier + LIST_QUERY;
    var recordPrefix := ZONES_ENDPOINT + s.zoneIdentifier + RECORDS_PATH;
    assert url == listPrefix + s.filter;
    var at := |ZONES_ENDPOINT + s.zoneIdentifier| + |"/dns_records"|;
    assert url[at] == listPrefix[at] == '?';
    assert recordPrefix[at] == '/';
  }

  /** The record URL names the record: its identifier is read back unchanged. */
  lemma RecordUrlRoundTrip(s: CloudflareService, record: DnsRecord)
    ensures RecordIdOf(s.zoneIdentifier, RecordUrl(s, record)) == Some(record.id)
  {
  }

  // ---------------------------------------------------------------------------
  // GetDnsRecords
  // ---------------------------------------------------------------------------

  /** The listing request: a GET of the listing URL, without a body. */
  function ListRequest(s: CloudflareService): HttpRequest
  {
    HttpRequest(Get, ListRecordsUrl(s), None)
  }

  /** An exchange whose request was built, so that it was handed to the HTTP client. */
  predicate Sent<T>(outcome: Exchange<T>)
  {
    !outcome.RequestNotBuilt?
  }

  /**
   * `GetDnsRecords`, given the outcome of its exchange: every failure gives an
   * empty list and an error naming the stage; a decoded envelope gives its
   * `result` and no error, whatever its `success` field says. The listing
   * request reaches the HTTP client unless it could not be built.
   */
  function GetDnsRecords(s: CloudflareService, outcome: Exchange<GetDnsApiResponse>): (r: Listing)
    ensures r.sent == [] <==> !Sent(outcome)
    ensures r.sent != [] ==> r.sent == [ListRequest(s)]
    ensures r.err.None? <==> outcome.Decoded?
    ensures outcome.Decoded? ==> r.records == outcome.response.result
    ensures r.err.Some? ==> r.records == []
    ensures outcome.RequestNotBuilt? ==> r.err == Some("error creating request: " + outcome.cause)
    ensures outcome.TransportFailed? ==> r.err == Some("error making request: " + outcome.cause)
    ensures outcome.BodyUnreadable? ==> r.err == Some("error reading response body: " + outcome.cause)
    ensures outcome.Undecodable? ==> r.err == Some("error decoding JSON: " + outcome.cause)
  {
    match outcome
    case RequestNotBuilt(cause) => Listing([], Some("error creating request: " + cause), [])
    case TransportFailed(cause) => Listing([], Some("error making request: " + cause), [ListRequest(s)])
    case BodyUnreadable(cause) => Listing([], Some("error reading response body: " + cause), [ListRequest(s)])
    case Undecodable(cause) => Listing([], Some("error decoding JSON: " + cause), [ListRequest(s)])
    case Decoded(response) => Listing(response.result, None, [ListRequest(s)])
  }

  /** The `success`, `errors` and `messages` fields of the listing envelope have no effect. */
  lemma GetDnsRecordsIgnoresSuccess(s: CloudflareService, a: GetDnsApiResponse, b: GetDnsApiResponse)
    requires a.result == b.result
    ensures GetDnsRecords(s, Decoded(a)) == GetDnsRecords(s, Decoded(b)) == Listing(a.result, None, [ListRequest(s)])
  {
  }

  // ---------------------------------------------------------------------------
  // updateDnsRecordRequest
  // ---------------------------------------------------------------------------

  /** The request built for one record: a PATCH of that record's URL whose body content is the new address. */
  function UpdateRequest(s: CloudflareService, record: DnsRecord, ip: string): (req: HttpRequest)
    ensures req.verb == Patch
    ensures req.body == Some(UpdateDnsRecordBody(ip))
    ensures RecordIdOf(s.zoneIdentifier, req.url) == Some(record.id)
  {
    RecordUrlRoundTrip(s, record);
    HttpRequest(Patch, RecordUrl(s, record), Some(UpdateDnsRecordBody(ip)))
  }

  /**
   * The error `updateDnsRecordRequest` returns for a given outcome: nil exactly
   * when the envelope decoded and reports success; a decoded envelope with
   * `success == false` is an error carrying the provider's error list.
   */
  function UpdateError(outcome: PatchOutcome): (err: Option<string>)
    ensures err.None? <==> outcome.Exchanged? && outcome.exchange.Decoded? && outcome.exchange.response.success
    ensures outcome.MarshalFailed? ==> err == Some("failed to marshal JSON payload: " + outcome.cause)
    ensures outcome.Exchanged? && outcome.exchange.RequestNotBuilt? ==>
              err == Some("failed to create HTTP request: " + outcome.exchange.cause)
    ensures outcome.Exchanged? && outcome.exchange.TransportFailed? ==>
              err == Some("failed to perform HTTP request: " + outcome.exchange.cause)
    ensures outcome.Exchanged? && outcome.exchange.BodyUnreadable? ==>
              err == Some("failed to read response body: " + outcome.exchange.cause)
    ensures outcome.Exchanged? && outcome.exchange.Undecodable? ==>
              err == Some("failed to unmarshal API response: " + outcome.exchange.cause)
    ensures outcome.Exchanged? && outcome.exchange.Decoded? && !outcome.exchange.response.success ==>
              err == Some("API request failed: " + GoText.FormatSlice(outcome.exchange.response.errors))
  {
    match outcome
    case MarshalFailed(cause) => Some("failed to marshal JSON payload: " + cause)
    case Exchanged(exchange) =>
      match exchange
      case RequestNotBuilt(cause) => Some("failed to create HTTP request: " + cause)
      case TransportFailed(cause) => Some("failed to perform HTTP request: " + cause)
      case BodyUnreadable(cause) => Some("failed to read response body: " + cause)
      case Undecodable(cause) => Some("failed to unmarshal API response: " + cause)
      case Decoded(response) =>
        if !response.success then Some("API request failed: " + GoText.FormatSlice(response.errors)) else None
  }

  /** A per-record update whose payload was marshalled and whose request was built, so that it reached the HTTP client. */
  predicate PatchSent(outcome: PatchOutcome)
  {
    outcome.Exchanged? && Sent(outcome.exchange)
  }

  // ---------------------------------------------------------------------------
  // UpdateDnsRecord
  // ---------------------------------------------------------------------------

  /** The PATCH requests for the given records, in their order. */
  function UpdateRequests(s: CloudflareService, records: seq<DnsRecord>, ip: string): (reqs: seq<HttpRequest>)
    ensures |reqs| == |records|
    ensures forall i :: 0 <= i < |records| ==> reqs[i] == UpdateRequest(s, records[i], ip)
  {
    if records == [] then [] else [UpdateRequest(s, records[0], ip)] + UpdateRequests(s, records[1..], ip)
  }

  /**
   * The position of the first failing update at or after `i` among `n`, or `n`
   * when none fails; `respond(j)` is the outcome of the j-th record's update.
   */
  function FirstFailure(n: nat, respond: nat -> PatchOutcome, i: nat): (k: nat)
    requires i <= n
    ensures i <= k <= n
    ensures forall j :: i <= j < k ==> UpdateError(respond(j)).None?
    ensures k < n ==> UpdateError(respond(k)).Some?
    decreases n - i
  {
    if i == n || UpdateError(respond(i)).Some? then i else FirstFailure(n, respond, i + 1)
  }

  /** The request of the k-th record as far as it reached the HTTP client: itself, or nothing. */
  function SentUpdate(s: CloudflareService, records: seq<DnsRecord>, ip: string, respond: nat -> PatchOutcome, k: nat): seq<HttpRequest>
    requires k < |records|
  {
    if PatchSent(respond(k)) then [UpdateRequest(s, records[k], ip)] else []
  }

  /**
   * The specification of `UpdateDnsRecord`: the records are updated in order
   * up to and including the first failing one; the result is nil exactly when
   * every update succeeds, and otherwise is the first failing update's error.
   * Every update before the failing one reached the provider; the failing one
   * did unless its payload or its request could not be built.
   */
  function UpdateAll(s: CloudflareService, records: seq<DnsRecord>, ip: string, respond: nat -> PatchOutcome): (r: UpdateRun)
    ensures r.err.None? <==> forall j :: 0 <= j < |records| ==> UpdateError(respond(j)).None?
    ensures r.err.None? ==> r.sent == UpdateRequests(s, records, ip)
    ensures r.err.Some? ==>
              var k := FirstFailure(|records|, respond, 0);
              && k < |records|
              && (forall j :: 0 <= j < k ==> UpdateError(respond(j)).None?)
              && r.err == UpdateError(respond(k))
              && r.sent == UpdateRequests(s, records[..k], ip) + SentUpdate(s, records, ip, respond, k)
  {
    var k := FirstFailure(|records|, respond, 0);
    if k == |records| then
      UpdateRun(None, UpdateRequests(s, records, ip))
    else
      UpdateRun(UpdateError(respond(k)), UpdateRequests(s, records[..k], ip) + SentUpdate(s, records, ip, respond, k))
  }

  /** An empty record list succeeds without issuing any request. */
  lemma UpdateAllEmpty(s: CloudflareService, ip: string, respond: nat -> PatchOutcome)
    ensures UpdateAll(s, [], ip, respond) == UpdateRun(None, [])
  {
  }

  /** Extending the prefix of patched records by one record adds that record's request at the end. */
  lemma UpdateRequestsSnoc(s: CloudflareService, records: seq<DnsRecord>, ip: string, i: nat)
    requires i < |records|
    ensures UpdateRequests(s, records[..i + 1], ip) == UpdateRequests(s, records[..i], ip) + [UpdateRequest(s, records[i], ip)]
  {
    var xs, ys := UpdateRequests(s, records[..i + 1], ip), UpdateRequests(s, records[..i], ip) + [UpdateRequest(s, records[i], ip)];
    assert |xs| == |ys|;
    forall k | 0 <= k < |xs| ensures xs[k] == ys[k] {
      assert records[..i + 1][k] == records[k];
    }
  }

  /** When every update before `i` succeeds and the i-th fails, the i-th is the first failure. */
  lemma FirstFailureAt(n: nat, respond: nat -> PatchOutcome, i: nat)
    requires i < n
    requires forall j :: 0 <= j < i ==> UpdateError(respond(j)).None?
    requires UpdateError(respond(i)).Some?
    ensures FirstFailure(n, respond, 0) == i
  {
  }

  /**
   * `UpdateDnsRecord`: updates the records one at a time and returns at the
   * first error. `sent` lists the PATCH requests handed to the HTTP client.
   */
  method UpdateDnsRecord(s: CloudflareService, records: seq<DnsRecord>, ip: string, respond: nat -> PatchOutcome)
    returns (err: Option<string>, sent: seq<HttpRequest>)
    ensures UpdateRun(err, sent) == UpdateAll(s, records, ip, respond)
  {
    sent := [];
    var i := 0;
    while i < |records|
      invariant 0 <= i <= |records|
      invariant forall j :: 0 <= j < i ==> UpdateError(respond(j)).None?
      invariant sent == UpdateRequests(s, records[..i], ip)
    {
      var request := UpdateRequest(s, records[i], ip);
      var e := UpdateError(respond(i));
      if e.Some? {
        FirstFailureAt(|records|, respond, i);
        if PatchSent(respond(i)) {
          sent := sent + [request];
        }
        err := e;
        return;
      }
      UpdateRequestsSnoc(s, records, ip, i);
      sent := sent + [request];
      i := i + 1;
    }
    assert records[..i] == records;
    err := None;
  }
}
