/**
 * The object-store backup of request logs: whether the store is configured,
 * the date-partitioned key each log is stored under, the metadata sent with
 * it, and the client whose uploads either all succeed or leave nothing behind.
 */
module Storage {
  import opened Wrappers
  import opened Text
  import opened JsonValue

  /** A UTC instant at whole-second resolution. */
  datatype DateTime = DateTime(year: nat, month: nat, day: nat, hour: nat, minute: nat, second: nat)

  predicate ValidDateTime(t: DateTime) {
    && 1 <= t.year <= 9999 && 1 <= t.month <= 12 && 1 <= t.day <= 31
    && t.hour < 24 && t.minute < 60 && t.second < 60
  }

  /** `f"{n:04d}"` for `n < 10000`. */
  function Pad4(n: nat): (r: string)
    requires n < 10000
    ensures |r| == 4 && AllDigits(r) && DecimalValue(r) == n
  {
    var high, low := Pad2(n / 100), Pad2(n % 100);
    DecimalAppendTwo(high, low);
    high + low
  }

  /** Appending two digits shifts the value by a hundred. */
  lemma {:induction false} DecimalAppendTwo(a: string, b: string)
    requires AllDigits(a) && AllDigits(b) && |b| == 2
    ensures AllDigits(a + b) && DecimalValue(a + b) == DecimalValue(a) * 100 + DecimalValue(b)
  {
    var c, d := a + b, a + b[..1];
    assert c[..|c| - 1] == d && d[..|d| - 1] == a && b[..1][..0] == [];
    var va, d0, d1 := DecimalValue(a), DigitValue(b[0]), DigitValue(b[1]);
    assert DecimalValue(d) == va * 10 + d0;
    assert DecimalValue(b[..1]) == d0;
    assert DecimalValue(b) == d0 * 10 + d1;
    assert DecimalValue(c) == (va * 10 + d0) * 10 + d1;
  }

  /** `YYYY-MM-DD` */
  function IsoDate(t: DateTime): (r: string)
    requires ValidDateTime(t)
    ensures |r| == 10
  {
    Pad4(t.year) + "-" + Pad2(t.month) + "-" + Pad2(t.day)
  }

  /** `HH:MM:SS` */
  function IsoTime(t: DateTime): (r: string)
    requires ValidDateTime(t)
    ensures |r| == 8
  {
    Pad2(t.hour) + ":" + Pad2(t.minute) + ":" + Pad2(t.second)
  }

  /** `datetime.isoformat()` of a whole-second instant. */
  function IsoFormat(t: DateTime): (r: string)
    requires ValidDateTime(t)
    ensures |r| == 19 && r[10] == 'T'
  {
    IsoDate(t) + "T" + IsoTime(t)
  }

  /** Where the six fields of `Y-M-DTh:m:s` sit, whatever their digits. */
  lemma {:induction false} IsoFieldsSit(y: string, mo: string, d: string, h: string, mi: string, sec: string)
    requires |y| == 4 && |mo| == 2 && |d| == 2 && |h| == 2 && |mi| == 2 && |sec| == 2
    ensures var r := (y + "-" + mo + "-" + d) + "T" + (h + ":" + mi + ":" + sec);
            && r[..4] == y && r[4] == '-' && r[5..7] == mo && r[7] == '-' && r[8..10] == d && r[10] == 'T'
            && r[11..13] == h && r[13] == ':' && r[14..16] == mi && r[16] == ':' && r[17..] == sec
  {
    var r := (y + "-" + mo + "-" + d) + "T" + (h + ":" + mi + ":" + sec);
    assert r == y + ("-" + (mo + ("-" + (d + ("T" + (h + (":" + (mi + (":" + sec)))))))));
  }

  /**
   * The ISO timestamp holds the four-digit year, then the two-digit month,
   * day, hour, minute and second, separated by '-', 'T' and ':'; each field's
   * digits read back as the instant's own field (`Pad4`, `Pad2`).
   */
  lemma {:induction false} IsoFormatLayout(t: DateTime)
    requires ValidDateTime(t)
    ensures var r := IsoFormat(t);
            && r[..4] == Pad4(t.year) && r[4] == '-' && r[5..7] == Pad2(t.month) && r[7] == '-'
            && r[8..10] == Pad2(t.day) && r[10] == 'T'
            && r[11..13] == Pad2(t.hour) && r[13] == ':' && r[14..16] == Pad2(t.minute) && r[16] == ':'
            && r[17..] == Pad2(t.second)
  {
    IsoFieldsSit(Pad4(t.year), Pad2(t.month), Pad2(t.day), Pad2(t.hour), Pad2(t.minute), Pad2(t.second));
  }

  /** `var is not None and var.strip() != ""` */
  predicate Filled(v: Option<string>) {
    v.Some? && Strip(v.value) != []
  }

  /** `_is_configured`: key, secret and endpoint are all set and not blank. */
  function IsConfigured(key: Option<string>, secret: Option<string>, endpoint: Option<string>): (ok: bool)
    ensures ok <==> && key.Some? && (exists k :: 0 <= k < |key.value| && !IsSpace(key.value[k]))
                    && secret.Some? && (exists k :: 0 <= k < |secret.value| && !IsSpace(secret.value[k]))
                    && endpoint.Some? && (exists k :: 0 <= k < |endpoint.value| && !IsSpace(endpoint.value[k]))
  {
    StripEmptyIff(if key.Some? then key.value else "");
    StripEmptyIff(if secret.Some? then secret.value else "");
    StripEmptyIff(if endpoint.Some? then endpoint.value else "");
    Filled(key) && Filled(secret) && Filled(endpoint)
  }

  const DefaultBucket := "garden-planner-logs"
  const KeyPrefix := "request-logs/"

  /**
   * Python's `str(v)` of a JSON value.  Arrays and objects are rendered as
   * fixed placeholders rather than their Python representation.
   */
  function Display(j: Json): string {
    match j
    case JNull => "None"
    case JBool(b) => if b then "True" else "False"
    case JNum(n) => if n < 0 then "-" + NatToString(-n) else NatToString(n)
    case JStr(s) => s
    case JArr(_) => "[...]"
    case JObj(_) => "{...}"
  }

  /** `log_data.get('id', 'unknown')` as the key formats it. */
  function LogId(record: map<string, Json>): (id: string)
    ensures "id" !in record ==> id == "unknown"
    ensures "id" in record && record["id"].JNum? && record["id"].n >= 0
            ==> AllDigits(id) && DecimalValue(id) == record["id"].n
  {
    if "id" in record then Display(record["id"]) else "unknown"
  }

  /** `{year}/{month:02d}/{day:02d}/` */
  function DatePath(t: DateTime): (r: string)
    requires ValidDateTime(t)
    ensures t.year >= 1000 ==> |r| == 11 && r[..4] == NatToString(t.year) && r[5..7] == Pad2(t.month)
                               && r[8..10] == Pad2(t.day)
  {
    var y, m, d := NatToString(t.year), Pad2(t.month), Pad2(t.day);
    var r := y + "/" + m + "/" + d + "/";
    assert r == y + ("/" + (m + ("/" + (d + "/"))));
    r
  }

  /** `_{HHMMSS}.json` */
  function Stamp(t: DateTime): (r: string)
    requires ValidDateTime(t)
    ensures |r| == 12 && r[0] == '_' && r[7..] == ".json"
    ensures r[1..3] == Pad2(t.hour) && r[3..5] == Pad2(t.minute) && r[5..7] == Pad2(t.second)
  {
    var h, m, s := Pad2(t.hour), Pad2(t.minute), Pad2(t.second);
    var r := "_" + h + m + s + ".json";
    assert r == "_" + (h + (m + (s + ".json")));
    r
  }

  /** `request-logs/{year}/{month:02d}/{day:02d}/{id}_{HHMMSS}.json` */
  function BackupKey(logId: string, t: DateTime): (key: string)
    requires ValidDateTime(t)
    ensures |KeyPrefix| < |key| && key[..|KeyPrefix|] == KeyPrefix
    ensures |key| > 5 && key[|key| - 5..] == ".json"
  {
    var head := KeyPrefix + DatePath(t) + logId;
    var stamp := Stamp(t);
    var key := head + stamp;
    assert head[..|KeyPrefix|] == KeyPrefix;
    assert key[..|head|] == head;
    assert key[|head|..] == stamp;
    assert key[|key| - 5..] == key[|head|..][7..];
    key
  }

  /** Where each field of a key with a four-digit year lies. */
  lemma {:induction false} BackupKeyLayout(logId: string, t: DateTime)
    requires ValidDateTime(t) && t.year >= 1000
    ensures var key := BackupKey(logId, t);
            var n := |logId|;
            && |key| == 36 + n
            && key[13..24] == DatePath(t)
            && key[24..24 + n] == logId
            && key[24 + n..] == Stamp(t)
  {
    var key := BackupKey(logId, t);
    var n := |logId|;
    var p, dp, st := KeyPrefix, DatePath(t), Stamp(t);
    assert key == p + dp + logId + st;
    assert key[13..24] == dp;
    assert key[24..24 + n] == logId;
  }

  /** Two backups of the same log, keyed in the same year range, share a key only when made in the same second. */
  lemma {:induction false} BackupKeyInjective(logId: string, t1: DateTime, t2: DateTime)
    requires ValidDateTime(t1) && ValidDateTime(t2) && t1.year >= 1000 && t2.year >= 1000
    requires BackupKey(logId, t1) == BackupKey(logId, t2)
    ensures t1 == t2
  {
    BackupKeyLayout(logId, t1);
    BackupKeyLayout(logId, t2);
    var k, n := BackupKey(logId, t1), |logId|;
    assert DatePath(t1) == k[13..24] == DatePath(t2);
    assert Stamp(t1) == k[24 + n..] == Stamp(t2);
    assert NatToString(t1.year) == DatePath(t1)[..4] == NatToString(t2.year);
    assert Pad2(t1.month) == DatePath(t1)[5..7] == Pad2(t2.month);
    assert Pad2(t1.day) == DatePath(t1)[8..10] == Pad2(t2.day);
    assert Pad2(t1.hour) == Stamp(t1)[1..3] == Pad2(t2.hour);
    assert Pad2(t1.minute) == Stamp(t1)[3..5] == Pad2(t2.minute);
    assert Pad2(t1.second) == Stamp(t1)[5..7] == Pad2(t2.second);
  }

  /** Every character is in the ASCII range. */
  predicate IsAscii(s: string) {
    forall k :: 0 <= k < |s| ==> s[k] as int < 128
  }

  /**
   * The object metadata: `location` and `garden_type` (default empty) must be
   * strings; `success` is the string form of the log's flag (default "False");
   * `timestamp` is the backup instant.  The S3 client refuses, before sending,
   * any metadata value that is not ASCII, so such a log is not uploaded.
   */
  function Metadata(record: map<string, Json>, t: DateTime): (r: Option<map<string, string>>)
    requires ValidDateTime(t)
    ensures r.Some? <==> && ("location" in record ==> record["location"].JStr? && IsAscii(record["location"].s))
                         && ("garden_type" in record ==> record["garden_type"].JStr? && IsAscii(record["garden_type"].s))
                         && ("success" in record ==> IsAscii(Display(record["success"])))
    ensures r.Some? ==> r.value.Keys == {"location", "garden_type", "success", "timestamp"}
                        && r.value["timestamp"] == IsoFormat(t)
                        && ("success" !in record ==> r.value["success"] == "False")
                        && ("success" in record && record["success"].JBool?
                            ==> r.value["success"] == (if record["success"].b then "True" else "False"))
  {
    var location := if "location" in record then record["location"] else JStr("");
    var gardenType := if "garden_type" in record then record["garden_type"] else JStr("");
    var success := if "success" in record then record["success"] else JBool(false);
    assert IsAscii("False");
    if location.JStr? && gardenType.JStr? && IsAscii(location.s) && IsAscii(gardenType.s) && IsAscii(Display(success)) then
      Some(map["location" := location.s, "garden_type" := gardenType.s,
               "success" := Display(success), "timestamp" := IsoFormat(t)])
    else None
  }

  /**
   * The metadata carries the log's own location and garden type, empty when
   * absent, and the string form of its success flag.
   */
  lemma {:induction false} MetadataValues(record: map<string, Json>, t: DateTime)
    requires ValidDateTime(t) && Metadata(record, t).Some?
    ensures var m := Metadata(record, t).value;
            && m["location"] == (if "location" in record then record["location"].s else "")
            && m["garden_type"] == (if "garden_type" in record then record["garden_type"].s else "")
            && m["success"] == (if "success" in record then Display(record["success"]) else "False")
  {
    var location := if "location" in record then record["location"] else JStr("");
    var gardenType := if "garden_type" in record then record["garden_type"] else JStr("");
    var success := if "success" in record then record["success"] else JBool(false);
    assert Metadata(record, t).value["location"] == location.s;
    assert Metadata(record, t).value["garden_type"] == gardenType.s;
    assert Metadata(record, t).value["success"] == Display(success);
  }

  /** The string form of a flag, "True" or "False", is ASCII. */
  lemma FlagIsAscii(b: bool)
    ensures IsAscii(Display(JBool(b)))
  {
    assert Display(JBool(b)) == (if b then "True" else "False");
  }

  datatype Upload = Upload(bucket: string, key: string, body: map<string, Json>, metadata: map<string, string>)

  /**
   * `backup_request_log`: nothing when the client is inactive; otherwise the
   * key, unless the upload raises (`putOk` false, or metadata the store
   * refuses), in which case nothing.
   */
  function BackupOutcome(active: bool, record: map<string, Json>, t: DateTime, putOk: bool): (r: Option<string>)
    requires ValidDateTime(t)
    ensures !active || !putOk ==> r.None?
    ensures r.Some? <==> active && putOk && Metadata(record, t).Some?
    ensures r.Some? ==> r.value == BackupKey(LogId(record), t)
  {
    if !active || !putOk || Metadata(record, t).None? then None
    else Some(BackupKey(LogId(record), t))
  }

  /** A log that carries no `id` is stored under "unknown". */
  lemma {:induction false} MissingIdIsUnknown(record: map<string, Json>, t: DateTime)
    requires ValidDateTime(t) && "id" !in record
    requires BackupOutcome(true, record, t, true).Some?
    ensures BackupOutcome(true, record, t, true).value == BackupKey("unknown", t)
  {
  }

  /** A log whose location has a non-ASCII letter is never backed up, whatever the store would accept. */
  lemma {:induction false} NonAsciiLocationNotBackedUp(record: map<string, Json>, t: DateTime)
    requires ValidDateTime(t) && "location" in record && record["location"] == JStr("Z\U{fc}rich, ZH")
    ensures BackupOutcome(true, record, t, true).None?
  {
    assert !IsAscii(record["location"].s) by {
      assert record["location"].s[1] as int == 252;
    }
  }

  /**
   * The uploads one backup attempt adds: none when the store is disabled or
   * the backup fails, else the one upload under the log's key.
   */
  function BackupUploads(enabled: bool, active: bool, bucket: string, record: map<string, Json>,
                         now: DateTime, putOk: bool): (u: seq<Upload>)
    requires ValidDateTime(now)
    ensures |u| <= 1
    ensures u != [] <==> enabled && BackupOutcome(active, record, now, putOk).Some?
    ensures u != [] ==> u[0].key == BackupKey(LogId(record), now) && u[0].body == record && u[0].bucket == bucket
  {
    if !enabled then []
    else
      var key := BackupOutcome(active, record, now, putOk);
      if key.Some? then [Upload(bucket, key.value, record, Metadata(record, now).value)] else []
  }

  /** The Spaces client: configuration is read once; a client that cannot be built disables backups. */
  class SpacesClient {
    const key: Option<string>
    const secret: Option<string>
    const endpoint: Option<string>
    const bucket: string
    var enabled: bool
    var hasClient: bool
    var uploads: seq<Upload>

    /** `clientOk` is whether constructing the store client succeeds. */
    constructor(key: Option<string>, secret: Option<string>, endpoint: Option<string>,
                bucket: Option<string>, clientOk: bool)
      ensures this.key == key && this.secret == secret && this.endpoint == endpoint
      ensures this.bucket == (if bucket.Some? then bucket.value else DefaultBucket)
      ensures enabled <==> IsConfigured(key, secret, endpoint) && clientOk
      ensures hasClient == enabled
      ensures uploads == []
    {
      this.key := key;
      this.secret := secret;
      this.endpoint := endpoint;
      this.bucket := if bucket.Some? then bucket.value else DefaultBucket;
      uploads := [];
      var configured := IsConfigured(key, secret, endpoint);
      enabled := configured;
      hasClient := false;
      if configured {
        if clientOk {
          hasClient := true;
        } else {
          enabled := false;
        }
      }
    }

    /**
     * `backup_request_log` at instant `now`; `putOk` is whether the store
     * accepts the upload.  The returned key is the key uploaded under, and a
     * failure uploads nothing.
     */
    method BackupRequestLog(record: map<string, Json>, now: DateTime, putOk: bool) returns (r: Option<string>)
      requires ValidDateTime(now)
      modifies this`uploads
      ensures r == BackupOutcome(enabled && hasClient, record, now, putOk)
      ensures r.Some? ==> uploads == old(uploads) + [Upload(bucket, r.value, record, Metadata(record, now).value)]
      ensures r.None? ==> uploads == old(uploads)
      ensures uploads == old(uploads) + BackupUploads(enabled, hasClient, bucket, record, now, putOk)
    {
      if !enabled || !hasClient {
        return None;
      }
      var key := BackupKey(LogId(record), now);
      var metadata := Metadata(record, now);
      if metadata.None? || !putOk {
        return None;
      }
      uploads := uploads + [Upload(bucket, key, record, metadata.value)];
      r := Some(key);
    }
  }
}
