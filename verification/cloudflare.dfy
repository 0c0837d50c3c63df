/**
 * The Cloudflare client of cfcr (cloudflare/cloudflare.go). The HTTP round trip
 * and the JSON decoding are not modelled: a getter receives the decoded body
 * (or the fact that getting it failed) and the model states how the source
 * reads that body: the shape check on the "result" array, the closed status
 * vocabulary and the check of the revalidation answer. The requests themselves
 * (URL and headers) are modelled as values.
 */
module Cloudflare {
  import opened Wrappers
  import opened GoStrings

  const PendingCertificate := "pending_validation"
  const ActiveCertificate := "active"
  const ValidationTimedOut := "validation_timed_out"
  const InitializingCertificates := "initializing"

  /** The certificate-pack statuses the client accepts. */
  const KnownStatuses: set<string> :=
    {ActiveCertificate, PendingCertificate, ValidationTimedOut, InitializingCertificates}

  datatype CfError =
    | Transport                     // http.NewRequest, Client.Do, io.ReadAll or json.Unmarshal failed
    | EmptyResponse                 // ErrEmptyResponse: the "result" field is null or absent
    | NoResult                      // ErrNoResult: the "result" array is empty
    | UnknownStatus(status: string) // a status outside KnownStatuses
    | RevalidationRefused           // the PATCH answer has success = false
    | UnexpectedStatus(got: string) // the PATCH answer's status is not "initializing"

  datatype Credentials = Credentials(token: string)

  /** A decoded "result" array; Go tells a nil slice (null or absent) from an empty one. */
  datatype ResultList<T> = Null | Items(items: seq<T>)

  /** The answer to a GET: a failure before a body could be decoded, or the decoded body. */
  datatype Reply<T> = Failed | Decoded(result: ResultList<T>)

  datatype ValidationRecord = ValidationRecord(status: string, txtName: string, txtValue: string)

  /** One element of the answer to the zone query. */
  datatype ZoneRow = ZoneRow(id: string)

  /** One certificate pack of the answer to `certificate_packs?status=all`. */
  datatype PackRow = PackRow(status: string, id: string, validationRecords: seq<ValidationRecord>)

  /** The decoded answer to the revalidation PATCH. */
  datatype PatchBody = PatchBody(errors: seq<string>, resultId: string, resultStatus: string, success: bool)

  datatype PatchReply = PatchFailed | PatchDecoded(body: PatchBody)

  /** The answers Cloudflare gives during one tick, by zone name and by zone ID. */
  datatype Edge = Edge(
    zones: string -> Reply<ZoneRow>,       // GetZoneID(name)
    statuses: string -> Reply<PackRow>,    // GetCertificatePacksStatus(zone ID)
    validations: string -> Reply<PackRow>) // GetTXTValues(zone ID)

  /** The shape check all three getters apply before reading the first element. */
  function FirstResult<T>(reply: Reply<T>): Result<T, CfError>
  {
    match reply
    case Failed => Err(Transport)
    case Decoded(Null) => Err(EmptyResponse)
    case Decoded(Items(rows)) => if |rows| < 1 then Err(NoResult) else Ok(rows[0])
  }

  /** GetZoneID: the ID of the first zone of the answer. */
  function GetZoneID(reply: Reply<ZoneRow>): (r: Result<string, CfError>)
    ensures r.Ok? <==> reply.Decoded? && reply.result.Items? && reply.result.items != []
    ensures r.Ok? ==> r.value == reply.result.items[0].id
  {
    match FirstResult(reply)
    case Err(e) => Err(e)
    case Ok(row) => Ok(row.id)
  }

  /** GetTXTValues: the validation records of the first pack, unchanged and possibly empty. */
  function GetTXTValues(reply: Reply<PackRow>): (r: Result<seq<ValidationRecord>, CfError>)
    ensures r.Ok? <==> reply.Decoded? && reply.result.Items? && reply.result.items != []
    ensures r.Ok? ==> r.value == reply.result.items[0].validationRecords
  {
    match FirstResult(reply)
    case Err(e) => Err(e)
    case Ok(row) => Ok(row.validationRecords)
  }

  datatype PackStatus = PackStatus(status: string, packId: string)

  /** The status switch: one of the four known statuses with the pack's ID, or an error. */
  function ClassifyStatus(row: PackRow): (r: Result<PackStatus, CfError>)
    ensures r.Ok? <==> row.status in KnownStatuses
    ensures r.Ok? ==> r.value.status == row.status && r.value.packId == row.id
    ensures r.Err? ==> r.error == UnknownStatus(row.status)
  {
    if row.status == ActiveCertificate then Ok(PackStatus(ActiveCertificate, row.id))
    else if row.status == PendingCertificate then Ok(PackStatus(PendingCertificate, row.id))
    else if row.status == ValidationTimedOut then Ok(PackStatus(ValidationTimedOut, row.id))
    else if row.status == InitializingCertificates then Ok(PackStatus(InitializingCertificates, row.id))
    else Err(UnknownStatus(row.status))
  }

  /** GetCertificatePacksStatus: the first pack's status, when it is a known one, and its ID. */
  function GetCertificatePacksStatus(reply: Reply<PackRow>): (r: Result<PackStatus, CfError>)
    ensures r.Ok? ==> r.value.status in KnownStatuses
    ensures r.Ok? <==>
      reply.Decoded? && reply.result.Items? && reply.result.items != [] &&
      reply.result.items[0].status in KnownStatuses
    ensures r.Ok? ==>
      r.value == PackStatus(reply.result.items[0].status, reply.result.items[0].id)
    ensures (reply.Decoded? && reply.result.Items? && reply.result.items != [] &&
             reply.result.items[0].status !in KnownStatuses) ==>
      r == Err(UnknownStatus(reply.result.items[0].status))
  {
    match FirstResult(reply)
    case Err(e) => Err(e)
    case Ok(row) => ClassifyStatus(row)
  }

  /** The shape of a decoded answer, as far as the getters look at it. */
  datatype Shape = NotDecoded | NullResult | EmptyResult | NonEmpty

  function ShapeOf<T>(reply: Reply<T>): Shape
  {
    match reply
    case Failed => NotDecoded
    case Decoded(Null) => NullResult
    case Decoded(Items(rows)) => if rows == [] then EmptyResult else NonEmpty
  }

  /**
   * The three getters fail identically on answers of the same shape: null gives
   * ErrEmptyResponse, an empty array ErrNoResult; only a non-empty array gets past.
   */
  lemma GettersShareShapeRule(zone: Reply<ZoneRow>, status: Reply<PackRow>, txt: Reply<PackRow>)
    requires ShapeOf(zone) == ShapeOf(status) == ShapeOf(txt) != NonEmpty
    ensures GetZoneID(zone).Err? && GetCertificatePacksStatus(status).Err? && GetTXTValues(txt).Err?
    ensures GetZoneID(zone).error == GetCertificatePacksStatus(status).error == GetTXTValues(txt).error
    ensures ShapeOf(zone) == NullResult ==> GetZoneID(zone).error == EmptyResponse
    ensures ShapeOf(zone) == EmptyResult ==> GetZoneID(zone).error == NoResult
  {
  }

  /** Every known status is reported as it is, together with the pack's ID. */
  lemma KnownStatusReported(reply: Reply<PackRow>, row: PackRow, rest: seq<PackRow>)
    requires reply == Decoded(Items([row] + rest))
    requires row.status in KnownStatuses
    ensures GetCertificatePacksStatus(reply) == Ok(PackStatus(row.status, row.id))
  {
    assert ([row] + rest)[0] == row;
  }

  /**
   * TriggerCertificatesValidation: the PATCH answer is accepted only when it
   * reports success and the pack is back to "initializing".
   */
  function TriggerCertificatesValidation(reply: PatchReply): (err: Option<CfError>)
    ensures err == None <==>
      reply.PatchDecoded? && reply.body.success && reply.body.resultStatus == InitializingCertificates
    ensures reply.PatchDecoded? && !reply.body.success ==> err == Some(RevalidationRefused)
    ensures reply.PatchDecoded? && reply.body.success && reply.body.resultStatus != InitializingCertificates ==>
      err == Some(UnexpectedStatus(reply.body.resultStatus))
  {
    match reply
    case PatchFailed => Some(Transport)
    case PatchDecoded(body) =>
      if !body.success then Some(RevalidationRefused)
      else if body.resultStatus != InitializingCertificates then Some(UnexpectedStatus(body.resultStatus))
      else None
  }

  // ---------------------------------------------------------------------------
  // Requests

  const ApiBase := "https://api.cloudflare.com/client/v4"
  const BearerPrefix := "Bearer "

  datatype HttpMethod = Get | Patch

  datatype Request = Request(verb: HttpMethod, url: string, headers: seq<(string, string)>)

  /** The header set every request carries. */
  function Headers(credz: Credentials): seq<(string, string)>
  {
    [("Authorization", BearerPrefix + credz.token), ("Content-Type", "application/json")]
  }

  function ZoneIdRequest(name: string, credz: Credentials): Request
  {
    Request(Get, ApiBase + "/zones?name=" + name, Headers(credz))
  }

  /** The certificate-pack collection of a zone. */
  function PacksUrl(zoneId: string): string
  {
    ApiBase + "/zones/" + zoneId + "/ssl/certificate_packs"
  }

  function TxtValuesRequest(zoneId: string, credz: Credentials): Request
  {
    Request(Get, PacksUrl(zoneId) + "?status=all", Headers(credz))
  }

  function PacksStatusRequest(zoneId: string, credz: Credentials): Request
  {
    Request(Get, PacksUrl(zoneId) + "?status=all", Headers(credz))
  }

  function RevalidationRequest(zoneId: string, packId: string, credz: Credentials): Request
  {
    Request(Patch, PacksUrl(zoneId) + "/" + packId, Headers(credz))
  }

  /** The token a server reads back from the Authorization header, if it is a bearer token. */
  function BearerToken(headers: seq<(string, string)>): Option<string>
  {
    if headers == [] then None
    else if headers[0].0 == "Authorization" then
      (if HasPrefix(headers[0].1, BearerPrefix) then Some(headers[0].1[|BearerPrefix|..]) else None)
    else BearerToken(headers[1..])
  }

  /** Every request of the client authenticates with exactly the configured token. */
  lemma RequestsCarryToken(credz: Credentials, name: string, zoneId: string, packId: string)
    ensures BearerToken(ZoneIdRequest(name, credz).headers) == Some(credz.token)
    ensures BearerToken(TxtValuesRequest(zoneId, credz).headers) == Some(credz.token)
    ensures BearerToken(PacksStatusRequest(zoneId, credz).headers) == Some(credz.token)
    ensures BearerToken(RevalidationRequest(zoneId, packId, credz).headers) == Some(credz.token)
  {
    PrefixOfConcat(BearerPrefix, credz.token);
    assert (BearerPrefix + credz.token)[|BearerPrefix|..] == credz.token;
  }

  /**
   * The status query and the TXT-value query are the same GET; the revalidation
   * PATCH addresses one pack below that collection, so its URL is never the
   * query's and it names the pack ID it was built from.
   */
  lemma RequestUrls(zoneId: string, packId: string, credz: Credentials)
    ensures PacksStatusRequest(zoneId, credz) == TxtValuesRequest(zoneId, credz)
    ensures HasPrefix(RevalidationRequest(zoneId, packId, credz).url, PacksUrl(zoneId) + "/")
    ensures RevalidationRequest(zoneId, packId, credz).url[|PacksUrl(zoneId)| + 1..] == packId
    ensures RevalidationRequest(zoneId, packId, credz).url != PacksStatusRequest(zoneId, credz).url
  {
    var base := PacksUrl(zoneId);
    var patch := base + "/" + packId;
    var query := base + "?status=all";
    assert patch[|base|] == '/';
    assert query[|base|] == '?';
    assert patch[..|base| + 1] == base + "/";
    assert patch[|base| + 1..] == packId;
  }
}
