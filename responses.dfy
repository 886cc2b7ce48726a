/** Classification of HTTP status codes and parsed response bodies
    (check_response_status_code and the three check_*_response_status_key methods). */
module Responses {
  import opened Wrappers
  import opened Json

  /** What one send_request_* call hands back: (None, None) when the request or the
      decoding of its body raised, otherwise the HTTP status code and the parsed body. */
  datatype Reply = NoReply | Reply(statusCode: int, body: Json)

  /** The outcome of a boolean check whose failing branch may call sys_exit(). */
  datatype Verdict = Accept | Reject | Fatal

  /** The strings check_job_status_response_status_key passes on. */
  datatype JobStatus = Queued | Processing | Completed | Failed

  /** The result of check_job_status_response_status_key: one of the strings, False, or exit. */
  datatype StatusVerdict = Status(status: JobStatus) | StatusReject | StatusFatal

  const RateLimitMarker := "RATE_LIMIT_EXCEEDED"

  /** check_response_status_code; None stands for a missing status code. A falsy code and a
      429 are rejected, 401 ends the run, every other code (5xx included) is accepted. */
  function CheckResponseStatusCode(code: Option<int>): (v: Verdict)
    ensures v == Fatal <==> code == Some(401)
    ensures v == Reject <==> code == None || code == Some(0) || code == Some(429)
    ensures v == Accept <==> code.Some? && code.value != 0 && code.value != 401 && code.value != 429
  {
    if code.None? || code.value == 0 then Reject
    else if code.value == 401 then Fatal
    else if code.value == 429 then Reject
    else Accept
  }

  /** The error-code table shared by the three body checks: 401 and 421 end the run; 429,
      any other code, and a missing `code` (a KeyError inside the try) skip the file. */
  function ErrorCodeVerdict(body: Json): (v: Verdict)
    ensures v != Accept
    ensures v == Fatal <==> Get(body, "code") == Some(JInt(401)) || Get(body, "code") == Some(JInt(421))
  {
    match Get(body, "code")
    case None => Reject
    case Some(code) =>
      if code == JInt(429) then Reject
      else if code == JInt(401) || code == JInt(421) then Fatal
      else Reject
  }

  /** The common shape of the add and upload body checks: exactly one status string is
      accepted, "error" goes through the error-code table, anything else skips the file.
      `response_json["status"]` is read before the try, so a body without it (or a body
      that is not a dict) raises to the top-level handler, which exits. */
  function BodyStatusVerdict(body: Json, accepted: string): (v: Verdict)
    requires accepted != "error"
    ensures v == Accept <==> Get(body, "status") == Some(JStr(accepted))
    ensures v == Fatal <==>
      Get(body, "status") == None ||
      (Get(body, "status") == Some(JStr("error")) && ErrorCodeVerdict(body) == Fatal)
  {
    match Get(body, "status")
    case None => Fatal
    case Some(status) =>
      if status == JStr(accepted) then Accept
      else if status == JStr("error") then ErrorCodeVerdict(body)
      else Reject
  }

  /** check_job_add_response_status_key: only "waiting4files" lets the file proceed. */
  function CheckJobAddResponseStatusKey(body: Json): (v: Verdict)
    ensures v == Accept <==> Get(body, "status") == Some(JStr("waiting4files"))
    ensures v == Fatal <==>
      Get(body, "status") == None ||
      (Get(body, "status") == Some(JStr("error")) &&
       (Get(body, "code") == Some(JInt(401)) || Get(body, "code") == Some(JInt(421))))
  {
    BodyStatusVerdict(body, "waiting4files")
  }

  /** check_job_upload_response_status_key: only "queued" lets the file proceed. The
      `message` lookup in its last branch can only turn False into False. */
  function CheckJobUploadResponseStatusKey(body: Json): (v: Verdict)
    ensures v == Accept <==> Get(body, "status") == Some(JStr("queued"))
    ensures v == Fatal <==>
      Get(body, "status") == None ||
      (Get(body, "status") == Some(JStr("error")) &&
       (Get(body, "code") == Some(JInt(401)) || Get(body, "code") == Some(JInt(421))))
  {
    BodyStatusVerdict(body, "queued")
  }

  /** Whether an "error" status body's `message` holds the rate-limit marker; None when
      the lookup or the `in` test raises inside the try. */
  function RateLimited(body: Json): Option<bool> {
    match Get(body, "message")
    case None => None
    case Some(message) => Contains(message, RateLimitMarker)
  }

  /** check_job_status_response_status_key. The rate-limit test comes before `code` is
      read, so a rate-limited error body is "processing" whatever its code. */
  function CheckJobStatusResponseStatusKey(body: Json): (v: StatusVerdict)
    ensures Get(body, "status") == Some(JStr("completed")) <==> v == Status(Completed)
    ensures Get(body, "status") == Some(JStr("failed")) <==> v == Status(Failed)
    ensures Get(body, "status") == Some(JStr("queued")) <==> v == Status(Queued)
    ensures v == Status(Processing) <==>
      Get(body, "status") == Some(JStr("processing")) ||
      (Get(body, "status") == Some(JStr("error")) && RateLimited(body) == Some(true))
    ensures v == StatusFatal <==>
      Get(body, "status") == None ||
      (Get(body, "status") == Some(JStr("error")) && RateLimited(body) == Some(false) &&
       ErrorCodeVerdict(body) == Fatal)
  {
    match Get(body, "status")
    case None => StatusFatal
    case Some(status) =>
      if status == JStr("completed") then Status(Completed)
      else if status == JStr("failed") then Status(Failed)
      else if status == JStr("processing") then Status(Processing)
      else if status == JStr("queued") then Status(Queued)
      else if status == JStr("error") then
        match RateLimited(body)
        case None => StatusReject
        case Some(limited) =>
          if limited then Status(Processing)
          else if ErrorCodeVerdict(body) == Fatal then StatusFatal
          else StatusReject
      else StatusReject
  }

  /** send_request_job_status logs `response.json()["status"]` inside its try, so a body
      without a `status` key comes back as (None, None). */
  function StatusReply(r: Reply): (r': Reply)
    ensures r'.Reply? ==> r' == r && Get(r.body, "status").Some?
    ensures r.Reply? && Get(r.body, "status").Some? ==> r' == r
  {
    if r.Reply? && Get(r.body, "status").Some? then r else NoReply
  }

  /** The KeyError on `status` inside check_job_status_response_status_key cannot arise on a
      reply that went through send_request_job_status: exiting needs code 401 or 421. */
  lemma StatusBodyNeverLacksStatus(r: Reply)
    requires StatusReply(r).Reply?
    ensures CheckJobStatusResponseStatusKey(StatusReply(r).body) == StatusFatal ==>
      Get(r.body, "code") == Some(JInt(401)) || Get(r.body, "code") == Some(JInt(421))
  {
  }

  /** Rate limiting reported in the body never ends the run, even alongside code 401. */
  lemma RateLimitBeatsErrorCode(body: Json, message: string)
    requires Get(body, "status") == Some(JStr("error"))
    requires Get(body, "message") == Some(JStr(message))
    requires Text.IsSubstring(RateLimitMarker, message)
    ensures CheckJobStatusResponseStatusKey(body) == Status(Processing)
  {
  }
}
