/**
 * The request log: a store of committed records that a request either adds
 * exactly one record to or, when persisting fails, leaves as it was; the
 * best-effort backup of each record to the object store; and the simple
 * wrapper the routes call, which writes a log line and backs the data up.
 */
module Logging {
  import opened Wrappers
  import opened JsonValue
  import opened Schemas
  import opened Storage
  import opened Text

  /** A row of the request log. */
  datatype RequestLog = RequestLog(
    id: nat,
    timestamp: DateTime,
    location: string,
    direction: string,
    water: string,
    maintenance: string,
    gardenType: string,
    response: Option<Response>,
    plantCount: Option<nat>,
    season: Option<string>,
    success: bool,
    errorMessage: Option<string>,
    processingTimeMs: Option<int>,
    backupKey: Option<string>,
    backupTimestamp: Option<DateTime>)

  /** The record `log_request` builds: request fields copied, response fields set only when there is a response. */
  function NewEntry(id: nat, now: DateTime, request: Request, response: Option<Response>,
                    errorMessage: Option<string>, processingTimeMs: Option<int>): (e: RequestLog)
    ensures e.success <==> response.Some?
    ensures e.location == request.location && e.direction == DirectionValue(request.direction)
            && e.water == LevelValue(request.water) && e.maintenance == LevelValue(request.maintenance)
            && e.gardenType == GardenTypeValue(request.gardenType)
    ensures response.Some? ==> e.response == response && e.plantCount == Some(|response.value.plants|)
                               && e.season == Some(response.value.season)
    ensures response.None? ==> e.response.None? && e.plantCount.None? && e.season.None?
    ensures e.errorMessage == errorMessage && e.processingTimeMs == processingTimeMs
    ensures e.backupKey.None? && e.backupTimestamp.None?
  {
    var base := RequestLog(id, now, request.location, DirectionValue(request.direction),
                           LevelValue(request.water), LevelValue(request.maintenance),
                           GardenTypeValue(request.gardenType), None, None, None,
                           response.Some?, errorMessage, processingTimeMs, None, None);
    if response.Some? then
      base.(response := response, plantCount := Some(|response.value.plants|), season := Some(response.value.season))
    else base
  }

  /** A plant as `model_dump_json` writes it. */
  function PlantJson(p: Plant): Json {
    JObj(PlantFields(p))
  }

  /** A response as `model_dump_json` writes it and `json.loads` reads it back. */
  function ResponseJson(r: Response): Json {
    JObj(map["location" := JStr(r.location), "season" := JStr(r.season),
             "plants" := JArr(seq(|r.plants|, i requires 0 <= i < |r.plants| => PlantJson(r.plants[i]))),
             "generated_by" := JStr(r.generatedBy)])
  }

  /** An optional text column: its value, or `null`. */
  function OptText(v: Option<string>): Json {
    if v.Some? then JStr(v.value) else JNull
  }

  function IsoJson(t: DateTime): Json
    requires ValidDateTime(t)
  {
    JStr(IsoFormat(t))
  }

  predicate ValidTimes(e: RequestLog) {
    ValidDateTime(e.timestamp) && (e.backupTimestamp.Some? ==> ValidDateTime(e.backupTimestamp.value))
  }

  /** `to_dict`: every column, with absent values as `null`. */
  function ToDict(e: RequestLog): (d: map<string, Json>)
    requires ValidTimes(e)
  {
    OtherColumns(e) + BackupColumns(e)
  }

  /** The columns the backup reads: the id, the two metadata strings and the success flag. */
  function BackupColumns(e: RequestLog): map<string, Json> {
    map["id" := JNum(e.id), "location" := JStr(e.location), "garden_type" := JStr(e.gardenType),
        "success" := JBool(e.success)]
  }

  function OtherColumns(e: RequestLog): map<string, Json>
    requires ValidTimes(e)
  {
    map["timestamp" := IsoJson(e.timestamp),
        "direction" := JStr(e.direction), "water" := JStr(e.water), "maintenance" := JStr(e.maintenance),
        "response_json" := if e.response.Some? then ResponseJson(e.response.value) else JNull,
        "plant_count" := if e.plantCount.Some? then JNum(e.plantCount.value) else JNull,
        "season" := OptText(e.season),
        "error_message" := OptText(e.errorMessage),
        "processing_time_ms" := if e.processingTimeMs.Some? then JNum(e.processingTimeMs.value) else JNull,
        "spaces_backup_key" := OptText(e.backupKey),
        "spaces_backup_timestamp" := if e.backupTimestamp.Some? then IsoJson(e.backupTimestamp.value) else JNull]
  }

  /** A committed record's backup is stored under its own id and its success tag. */
  lemma {:induction false} BackupOfRecord(e: RequestLog, now: DateTime)
    requires ValidTimes(e) && ValidDateTime(now) && IsAscii(e.location) && IsAscii(e.gardenType)
    ensures var r := BackupOutcome(true, ToDict(e), now, true);
            && r.Some?
            && r.value == BackupKey(NatToString(e.id), now)
            && Metadata(ToDict(e), now).value["success"] == (if e.success then "True" else "False")
  {
    var d := ToDict(e);
    BackupColumnsWin(OtherColumns(e), e);
    assert LogId(d) == NatToString(e.id);
    FlagIsAscii(e.success);
    assert Metadata(d, now).Some?;
  }

  /** Whatever the other columns hold, the backup's four columns are the record's own. */
  lemma BackupColumnsWin(others: map<string, Json>, e: RequestLog)
    ensures var d := others + BackupColumns(e);
            && "id" in d && d["id"] == JNum(e.id)
            && "location" in d && d["location"] == JStr(e.location)
            && "garden_type" in d && d["garden_type"] == JStr(e.gardenType)
            && "success" in d && d["success"] == JBool(e.success)
  {
  }

  /**
   * `_backup_to_spaces`: attaches the key and the instant only when a
   * non-empty key comes back; the rest of the entry is untouched.
   */
  function WithBackup(e: RequestLog, key: Option<string>, now: DateTime): (b: RequestLog)
    ensures key.Some? && key.value != [] ==> b == e.(backupKey := key, backupTimestamp := Some(now))
    ensures key.None? || key.value == [] ==> b == e
  {
    if key.Some? && key.value != [] then e.(backupKey := key, backupTimestamp := Some(now)) else e
  }

  /** Rows numbered from 1 in insertion order, each with well-formed instants. */
  predicate Numbered(rows: seq<RequestLog>) {
    forall i :: 0 <= i < |rows| ==> rows[i].id == i + 1 && ValidTimes(rows[i])
  }

  /** Appending the next id keeps the numbering. */
  lemma NumberedAppend(rows: seq<RequestLog>, e: RequestLog)
    requires Numbered(rows) && e.id == |rows| + 1 && ValidTimes(e)
    ensures Numbered(rows + [e])
  {
    assert forall i :: 0 <= i < |rows| ==> (rows + [e])[i] == rows[i];
  }

  /** The request-log table: committed rows, numbered from 1 in insertion order. */
  class RequestLogStore {
    var rows: seq<RequestLog>

    predicate Valid()
      reads this
    {
      Numbered(rows)
    }

    constructor()
      ensures rows == [] && Valid()
    {
      rows := [];
    }

    /**
     * `LoggingService.log_request`.  `commitOk` is whether the database
     * accepts the insert; when it does not, the session rolls back and the
     * table is unchanged.  The backup runs after the commit and only changes
     * the returned entry, never the committed row.
     */
    method LogRequest(request: Request, response: Option<Response>, errorMessage: Option<string>,
                      processingTimeMs: Option<int>, now: DateTime, commitOk: bool,
                      spaces: SpacesClient, backupNow: DateTime, attachNow: DateTime, putOk: bool)
      returns (entry: Option<RequestLog>)
      requires Valid() && ValidDateTime(now) && ValidDateTime(backupNow) && ValidDateTime(attachNow)
      modifies this, spaces`uploads
      ensures Valid()
      ensures !commitOk ==> entry.None? && rows == old(rows) && spaces.uploads == old(spaces.uploads)
      ensures commitOk ==>
                var n := NewEntry(|old(rows)| + 1, now, request, response, errorMessage, processingTimeMs);
                && rows == old(rows) + [n]
                && entry == Some(WithBackup(n, if spaces.enabled
                                               then BackupOutcome(spaces.hasClient, ToDict(n), backupNow, putOk)
                                               else None,
                                            attachNow))
                && spaces.uploads == old(spaces.uploads)
                                     + BackupUploads(spaces.enabled, spaces.hasClient, spaces.bucket, ToDict(n),
                                                     backupNow, putOk)
      ensures commitOk ==> entry.Some? && entry.value.success == response.Some?
    {
      if !commitOk {
        return None;
      }
      var committed := NewEntry(|rows| + 1, now, request, response, errorMessage, processingTimeMs);
      NumberedAppend(rows, committed);
      rows := rows + [committed];
      var backedUp := BackupToSpaces(committed, spaces, backupNow, attachNow, putOk);
      entry := Some(backedUp);
    }

    /**
     * `_backup_to_spaces`: nothing happens when the object store is disabled.
     * The key is made at `keyNow`; the clock is read again, as `attachNow`,
     * for the instant attached to the entry.
     */
    static method BackupToSpaces(e: RequestLog, spaces: SpacesClient, keyNow: DateTime, attachNow: DateTime,
                                 putOk: bool)
      returns (b: RequestLog)
      requires ValidTimes(e) && ValidDateTime(keyNow)
      modifies spaces`uploads
      ensures b == WithBackup(e, if spaces.enabled then BackupOutcome(spaces.hasClient, ToDict(e), keyNow, putOk) else None,
                              attachNow)
      ensures spaces.uploads == old(spaces.uploads)
                                + BackupUploads(spaces.enabled, spaces.hasClient, spaces.bucket, ToDict(e), keyNow, putOk)
    {
      if !spaces.enabled {
        return e;
      }
      var key := spaces.BackupRequestLog(ToDict(e), keyNow, putOk);
      b := WithBackup(e, key, attachNow);
    }
  }

  /**
   * A successful backup always attaches its key, made at `keyNow`, and the
   * later clock reading `attachNow`; keys are never empty.
   */
  lemma {:induction false} SuccessfulBackupIsRecorded(e: RequestLog, keyNow: DateTime, attachNow: DateTime)
    requires ValidTimes(e) && ValidDateTime(keyNow) && IsAscii(e.location) && IsAscii(e.gardenType)
    ensures var b := WithBackup(e, BackupOutcome(true, ToDict(e), keyNow, true), attachNow);
            && b.backupKey == Some(BackupKey(NatToString(e.id), keyNow)) && b.backupTimestamp == Some(attachNow)
            && b.(backupKey := None, backupTimestamp := None) == e.(backupKey := None, backupTimestamp := None)
  {
    BackupOfRecord(e, keyNow);
  }

  /**
   * The module-level `log_request` the routes call: it writes the data to the
   * log and, when the object store is enabled, backs it up; it never raises.
   */
  class RequestLogger {
    const spaces: SpacesClient
    var lines: seq<map<string, Json>>

    constructor(spaces: SpacesClient)
      ensures this.spaces == spaces && lines == []
    {
      this.spaces := spaces;
      lines := [];
    }

    method LogRequest(logData: map<string, Json>, now: DateTime, putOk: bool)
      requires ValidDateTime(now)
      modifies this, spaces`uploads
      ensures lines == old(lines) + [logData]
      ensures spaces.uploads == old(spaces.uploads)
                                + BackupUploads(spaces.enabled, spaces.hasClient, spaces.bucket, logData, now, putOk)
    {
      lines := lines + [logData];
      if spaces.enabled {
        var _ := spaces.BackupRequestLog(logData, now, putOk);
      }
    }
  }
}
