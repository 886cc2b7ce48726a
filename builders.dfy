/** The strings and dicts API_file_processor builds: the job/add form payload and
    Authorization header, the upload and status URLs, the millisecond timestamp, and the
    name a downloaded or moved file is given. */
module Builders {
  import opened Wrappers
  import opened Json
  import Text

  const DeviceOriginKey := "paperoffice_device_origin"
  const DeviceOriginValue := "paperoffice_api_wrapper"

  /** What send_request_job_add does with the configured payload: the dict it sends, and
      the value the configuration holds afterwards. */
  datatype PayloadUse = PayloadUse(sent: map<string, Json>, persisted: Json)

  /** Lines 356-362. A falsy or non-dict payload is replaced by a fresh dict; a non-empty
      dict is the configuration's own object, so the marker is written into it in place. */
  function JobAddPayload(payload: Json): (u: PayloadUse)
    ensures DeviceOriginKey in u.sent && u.sent[DeviceOriginKey] == JStr(DeviceOriginValue)
    ensures forall k :: k in u.sent && k != DeviceOriginKey ==>
      payload.JDict? && k in payload.fields && u.sent[k] == payload.fields[k]
    ensures payload.JDict? ==> payload.fields.Keys <= u.sent.Keys
    ensures u.persisted == if payload.JDict? && payload.fields != map[] then JDict(u.sent) else payload
  {
    if payload.JDict? && payload.fields != map[] then
      var sent := payload.fields[DeviceOriginKey := JStr(DeviceOriginValue)];
      PayloadUse(sent, JDict(sent))
    else PayloadUse(map[DeviceOriginKey := JStr(DeviceOriginValue)], payload)
  }

  /** Because the marker is persisted, every later job/add of the same folder sends the same
      dict again and leaves the configuration as it is. */
  lemma {:induction false} JobAddPayloadIdempotent(payload: Json)
    ensures JobAddPayload(JobAddPayload(payload).persisted) == JobAddPayload(payload)
  {
    var u := JobAddPayload(payload);
    if payload.JDict? && payload.fields != map[] {
      assert DeviceOriginKey in u.sent;
      assert u.sent != map[];
      var u2 := JobAddPayload(u.persisted);
      assert u2.sent == u.sent;
    }
  }

  /** Lines 366-369: a bearer header exactly when an API key is configured. */
  function AuthHeaders(apiKey: string): (h: map<string, string>)
    ensures h.Keys <= {"Authorization"}
    ensures "Authorization" in h <==> apiKey != ""
    ensures "Authorization" in h ==>
      |h["Authorization"]| >= 7 &&
      h["Authorization"][..7] == "Bearer " && h["Authorization"][7..] == apiKey
  {
    if apiKey != "" then map["Authorization" := "Bearer " + apiKey] else map[]
  }

  /** Line 606. */
  function UploadUrl(host: string, jobId: string): string {
    "https://" + host + "/V5/job/upload/" + jobId
  }

  /** Line 627. */
  function StatusUrl(host: string, jobId: string): string {
    "https://" + host + "/V5/job/status/" + jobId
  }

  /** The text of s before its first '/'. */
  function UpToSlash(s: string): (r: string)
    ensures r <= s && '/' !in r
    ensures |r| < |s| ==> s[|r|] == '/'
  {
    if s == [] || s[0] == '/' then [] else [s[0]] + UpToSlash(s[1..])
  }

  /** The text of s after its last '/', all of s when it has none. */
  function LastSegment(s: string): (r: string)
    ensures '/' !in r
    ensures |r| <= |s| && r == s[|s| - |r|..]
  {
    if s == [] || s[|s| - 1] == '/' then [] else LastSegment(s[..|s| - 1]) + [s[|s| - 1]]
  }

  /** The host of an https URL: what follows the scheme up to the next '/'. */
  function HostOf(url: string): Option<string> {
    if |url| >= 8 && url[..8] == "https://" then Some(UpToSlash(url[8..])) else None
  }

  lemma {:induction false} UpToSlashOf(h: string, rest: string)
    requires '/' !in h
    requires rest != [] && rest[0] == '/'
    ensures UpToSlash(h + rest) == h
  {
    if h != [] {
      assert (h + rest)[1..] == h[1..] + rest;
      UpToSlashOf(h[1..], rest);
    } else {
      assert h + rest == rest;
    }
  }

  lemma {:induction false} LastSegmentOf(front: string, seg: string)
    requires '/' !in seg
    requires front != [] && front[|front| - 1] == '/'
    ensures LastSegment(front + seg) == seg
  {
    if seg != [] {
      var s := front + seg;
      assert s[..|s| - 1] == front + seg[..|seg| - 1];
      LastSegmentOf(front, seg[..|seg| - 1]);
      assert seg == seg[..|seg| - 1] + [seg[|seg| - 1]];
    } else {
      assert front + seg == front;
    }
  }

  /** A job URL: the scheme, the server-assigned host, a fixed path ending in '/', the id. */
  lemma {:induction false} JobUrlParts(host: string, path: string, jobId: string)
    requires '/' !in host && '/' !in jobId
    requires |path| > 0 && path[0] == '/' && path[|path| - 1] == '/'
    ensures HostOf("https://" + host + path + jobId) == Some(host)
    ensures LastSegment("https://" + host + path + jobId) == jobId
  {
    var url := "https://" + host + path + jobId;
    assert url[..8] == "https://";
    assert url[8..] == host + (path + jobId);
    UpToSlashOf(host, path + jobId);
    LastSegmentOf("https://" + host + path, jobId);
  }

  /** The server-assigned host and the job id can be read back from the upload and the
      status URL (when neither contains a '/'), and the two URLs of a job never coincide. */
  lemma JobUrlsRecoverHostAndId(host: string, jobId: string, otherId: string)
    requires '/' !in host && '/' !in jobId
    ensures HostOf(UploadUrl(host, jobId)) == Some(host)
    ensures HostOf(StatusUrl(host, jobId)) == Some(host)
    ensures LastSegment(UploadUrl(host, jobId)) == jobId
    ensures LastSegment(StatusUrl(host, jobId)) == jobId
    ensures UploadUrl(host, jobId) != StatusUrl(host, otherId)
  {
    JobUrlParts(host, "/V5/job/upload/", jobId);
    JobUrlParts(host, "/V5/job/status/", jobId);
    assert UploadUrl(host, jobId)[8 + |host| + 8] == 'u';
    assert StatusUrl(host, otherId)[8 + |host| + 8] == 's';
  }

  // ---------------------------------------------------------------- timestamps

  type Year = y: int | 1000 <= y <= 9999 witness 2024
  type Month = m: int | 1 <= m <= 12 witness 1
  type Day = d: int | 1 <= d <= 31 witness 1
  type Hour = h: int | 0 <= h <= 23
  type Minute = m: int | 0 <= m <= 59
  type Second = s: int | 0 <= s <= 59
  type Microsecond = u: int | 0 <= u <= 999999

  /** A reading of the clock (datetime.now()). */
  datatype DateTime = DateTime(year: Year, month: Month, day: Day, hour: Hour,
                               minute: Minute, second: Second, microsecond: Microsecond)

  /** `datetime.now().strftime("%Y%m%d-%H%M%S%f")[:-3]`: the date, a dash, the time and the
      microseconds with their last three digits cut off. */
  function Timestamp(t: DateTime): (s: string)
    ensures |s| == 18 && s[8] == '-'
  {
    var full := Text.Digits(t.year, 4) + Text.Digits(t.month, 2) + Text.Digits(t.day, 2) + "-" +
                Text.Digits(t.hour, 2) + Text.Digits(t.minute, 2) + Text.Digits(t.second, 2) +
                Text.Digits(t.microsecond, 6);
    full[..|full| - 3]
  }

  /** The same timestamp as a concatenation of its fields, the last one in milliseconds. */
  lemma TimestampParts(t: DateTime)
    ensures Timestamp(t) ==
      Text.Digits(t.year, 4) + Text.Digits(t.month, 2) + Text.Digits(t.day, 2) + "-" +
      Text.Digits(t.hour, 2) + Text.Digits(t.minute, 2) + Text.Digits(t.second, 2) +
      Text.Digits(t.microsecond / 1000, 3)
  {
    var head := Text.Digits(t.year, 4) + Text.Digits(t.month, 2) + Text.Digits(t.day, 2) + "-" +
                Text.Digits(t.hour, 2) + Text.Digits(t.minute, 2) + Text.Digits(t.second, 2);
    var us := Text.Digits(t.microsecond, 6);
    assert |head| == 15;
    assert (head + us)[..18] == head + us[..3];
    Text.MillisPrefix(t.microsecond);
  }

  lemma Pow10Small()
    ensures Text.Pow10(2) == 100 && Text.Pow10(3) == 1000 && Text.Pow10(4) == 10000
  {
    assert Text.Pow10(1) == 10;
    assert Text.Pow10(2) == 100;
    assert Text.Pow10(3) == 1000;
  }

  /** Every field of the clock reading can be read back from the timestamp. */
  lemma {:induction false} TimestampFields(t: DateTime)
    ensures var s := Timestamp(t);
      Text.DigitsValue(s[0..4]) == t.year && Text.DigitsValue(s[4..6]) == t.month &&
      Text.DigitsValue(s[6..8]) == t.day && Text.DigitsValue(s[9..11]) == t.hour &&
      Text.DigitsValue(s[11..13]) == t.minute && Text.DigitsValue(s[13..15]) == t.second &&
      Text.DigitsValue(s[15..18]) == t.microsecond / 1000
  {
    TimestampParts(t);
    Pow10Small();
    var s := Timestamp(t);
    assert s[0..4] == Text.Digits(t.year, 4);
    assert s[4..6] == Text.Digits(t.month, 2);
    assert s[6..8] == Text.Digits(t.day, 2);
    assert s[9..11] == Text.Digits(t.hour, 2);
    assert s[11..13] == Text.Digits(t.minute, 2);
    assert s[13..15] == Text.Digits(t.second, 2);
    assert s[15..18] == Text.Digits(t.microsecond / 1000, 3);
    Text.DigitsRoundTrip(t.year, 4);
    Text.DigitsRoundTrip(t.month, 2);
    Text.DigitsRoundTrip(t.day, 2);
    Text.DigitsRoundTrip(t.hour, 2);
    Text.DigitsRoundTrip(t.minute, 2);
    Text.DigitsRoundTrip(t.second, 2);
    Text.DigitsRoundTrip(t.microsecond / 1000, 3);
  }

  /** Two clock readings give the same timestamp exactly when they agree to the millisecond. */
  lemma TimestampInjective(a: DateTime, b: DateTime)
    ensures Timestamp(a) == Timestamp(b) <==>
      a.year == b.year && a.month == b.month && a.day == b.day && a.hour == b.hour &&
      a.minute == b.minute && a.second == b.second &&
      a.microsecond / 1000 == b.microsecond / 1000
  {
    TimestampFields(a);
    TimestampFields(b);
    TimestampParts(a);
    TimestampParts(b);
  }

  /** Lines 540 and 565: `f"{timestamp}_{name}"`. */
  function StampedName(t: DateTime, name: string): string {
    Timestamp(t) + "_" + name
  }

  /** A stamped name splits back into its timestamp and the original name. */
  lemma StampedNameSplit(t: DateTime, name: string)
    ensures var s := StampedName(t, name);
      |s| == 19 + |name| && s[..18] == Timestamp(t) && s[18] == '_' && s[19..] == name
  {
  }

  /** Distinct names, or clock readings a millisecond or more apart, never collide. */
  lemma StampedNameInjective(a: DateTime, n: string, b: DateTime, m: string)
    ensures StampedName(a, n) == StampedName(b, m) <==> Timestamp(a) == Timestamp(b) && n == m
  {
    StampedNameSplit(a, n);
    StampedNameSplit(b, m);
  }

  // ------------------------------------------- Content-Disposition filename

  const FilenameMarker := "filename=\""

  /** The regular expression `filename="(.+)"` matches s from index p, with its closing
      quote at index q: the marker at p, at least one character, no newline in between. */
  predicate MatchAt(s: string, p: int, q: int) {
    0 <= p && p + 10 < q < |s| && s[p..p + 10] == FilenameMarker && s[q] == '"' &&
    forall k :: p + 10 <= k < q ==> s[k] != '\n'
  }

  /** The end of the line that contains index c. */
  function LineEnd(s: string, c: nat): (e: nat)
    requires c <= |s|
    ensures c <= e <= |s|
    ensures forall k :: c <= k < e ==> s[k] != '\n'
    ensures e < |s| ==> s[e] == '\n'
    decreases |s| - c
  {
    if c == |s| || s[c] == '\n' then c else LineEnd(s, c + 1)
  }

  /** The last '"' strictly between c and e: where greedy `.+` gives back to. */
  function LastQuote(s: string, c: nat, e: nat): (r: Option<nat>)
    requires c <= e <= |s|
    ensures r.Some? ==> c < r.value < e && s[r.value] == '"'
    ensures r.Some? ==> forall k :: r.value < k < e ==> s[k] != '"'
    ensures r.None? ==> forall k :: c < k < e ==> s[k] != '"'
    decreases e
  {
    if e <= c + 1 then None
    else if s[e - 1] == '"' then Some(e - 1)
    else LastQuote(s, c, e - 1)
  }

  /** The leftmost match at or after p0, as (start, closing quote). */
  function MatchFrom(s: string, p0: nat): (r: Option<(nat, nat)>)
    ensures r.Some? ==> p0 <= r.value.0 && MatchAt(s, r.value.0, r.value.1)
    ensures r.Some? ==> forall p, q :: p0 <= p < r.value.0 ==> !MatchAt(s, p, q)
    ensures r.Some? ==> forall q :: MatchAt(s, r.value.0, q) ==> q <= r.value.1
    ensures r.None? ==> forall p, q :: p0 <= p ==> !MatchAt(s, p, q)
    decreases |s| - p0
  {
    if p0 + 10 > |s| then
      None
    else if s[p0..p0 + 10] == FilenameMarker && LastQuote(s, p0 + 10, LineEnd(s, p0 + 10)).Some? then
      Some((p0, LastQuote(s, p0 + 10, LineEnd(s, p0 + 10)).value))
    else
      MatchFrom(s, p0 + 1)
  }

  /** `re.findall('filename="(.+)"', s)[0]` when there is a match. */
  function FirstFilename(s: string): (r: Option<string>)
    ensures r.Some? <==> exists p, q :: MatchAt(s, p, q)
  {
    match MatchFrom(s, 0)
    case None => None
    case Some((p, q)) => Some(s[p + 10..q])
  }

  type Byte = b: int | 0 <= b < 256

  /** `str.encode('latin1')`: one byte per character; None when a character lies above
      U+00FF (a UnicodeEncodeError). */
  function Latin1Encode(s: string): (r: Option<seq<Byte>>)
    ensures r.Some? <==> forall k :: 0 <= k < |s| ==> s[k] as int < 256
    ensures r.Some? ==> |r.value| == |s|
  {
    if s == [] then Some([])
    else if s[0] as int >= 256 then None
    else match Latin1Encode(s[1..])
      case None => None
      case Some(rest) => Some([s[0] as int as Byte] + rest)
  }

  /** `bytes.decode('latin1')`. */
  function Latin1Decode(b: seq<Byte>): (s: string)
    ensures |s| == |b|
  {
    if b == [] then [] else [b[0] as char] + Latin1Decode(b[1..])
  }

  /** Latin-1 encoding loses nothing: decoding gives the string back. */
  lemma {:induction false} Latin1RoundTrip(s: string)
    requires Latin1Encode(s).Some?
    ensures Latin1Decode(Latin1Encode(s).value) == s
  {
    if s != [] {
      Latin1RoundTrip(s[1..]);
    }
  }

  /** Lines 529-537: the name a download is saved under, before the timestamp. A missing or
      empty header, or one without a match, falls back to the original name; a matched name
      is re-read as UTF-8 bytes, and None means that step raised. */
  function DownloadFileName(disposition: Option<string>, original: string,
                            utf8: seq<Byte> -> Option<string>): (r: Option<string>)
    ensures (disposition.None? || forall p, q :: !MatchAt(disposition.value, p, q)) ==>
      r == Some(original)
    ensures disposition.Some? && disposition.value != "" && FirstFilename(disposition.value).Some? ==>
      r == match Latin1Encode(FirstFilename(disposition.value).value)
           case None => None
           case Some(bytes) => utf8(bytes)
  {
    if disposition.None? || disposition.value == "" then Some(original)
    else match FirstFilename(disposition.value)
      case None => Some(original)
      case Some(captured) =>
        match Latin1Encode(captured)
        case None => None
        case Some(bytes) => utf8(bytes)
  }
}
