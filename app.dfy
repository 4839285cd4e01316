/**
  A model of the alert-ingestion webhook of app.py.

  The HTTP handler receives a batch of alerts, keeps the alerts that carry
  both routing labels (`team` and `severity`), stamps each kept alert with
  the one timestamp taken for the whole batch, appends the resulting record
  to the JSON log stored at `alerts/<team>/<severity>.json` and sends the
  record as a chat message.

  Files become a map from storage path to the (already parsed) sequence of
  records; the chat becomes the ordered sequence of records sent so far;
  the clock becomes a parameter.
 */
module App {

  datatype Option<+T> = None | Some(value: T)

  /** A JSON object whose values are strings. A key bound to JSON null is
      indistinguishable from a missing key for `dict.get`, so it is simply
      not in the map. */
  type Object = map<string, string>

  /** One entry of the `alerts` array. `None` stands for a missing
      `labels` or `annotations` member. */
  datatype RawAlert = RawAlert(labels: Option<Object>, annotations: Option<Object>)

  /** The persisted and sent form of a kept alert. `summary` and
      `description` are `None` when the annotation is absent (JSON null). */
  datatype Record = Record(
    team: string,
    severity: string,
    summary: Option<string>,
    description: Option<string>,
    timeStamp: string)

  /** What the handler answers: HTTP 400, or HTTP 200 with one of two messages. */
  datatype Reply = InvalidContentType | NoAlerts | Processed

  // ---------------------------------------------------------------------
  // Field extraction and the skip rule
  // ---------------------------------------------------------------------

  /** `alert.get("labels", {})`: a missing member reads as the empty object. */
  function OrEmpty(o: Option<Object>): Object {
    match o
    case None => map[]
    case Some(obj) => obj
  }

  /** `obj.get(key)`: `None` when the key is absent. */
  function Field(obj: Object, key: string): Option<string> {
    if key in obj then Some(obj[key]) else None
  }

  /** Python truthiness of `dict.get` on a string value: `None` and `""` are falsy. */
  predicate Truthy(v: Option<string>) {
    v.Some? && v.value != ""
  }

  /** The record built for one alert, or `None` when the alert is skipped
      because `team` or `severity` is missing or empty. */
  function Normalize(alert: RawAlert, ts: string): (r: Option<Record>)
    ensures var labels := OrEmpty(alert.labels);
      r.Some? <==> ("team" in labels && labels["team"] != ""
                    && "severity" in labels && labels["severity"] != "")
    ensures r.Some? ==>
      var labels, notes := OrEmpty(alert.labels), OrEmpty(alert.annotations);
      && r.value.team == labels["team"] && r.value.team != ""
      && r.value.severity == labels["severity"] && r.value.severity != ""
      && (r.value.summary == if "summary" in notes then Some(notes["summary"]) else None)
      && (r.value.description == if "description" in notes then Some(notes["description"]) else None)
      && r.value.timeStamp == ts
  {
    var labels := OrEmpty(alert.labels);
    var annotations := OrEmpty(alert.annotations);
    var team := Field(labels, "team");
    var severity := Field(labels, "severity");
    if Truthy(team) && Truthy(severity) then
      Some(Record(team.value, severity.value,
                  Field(annotations, "summary"), Field(annotations, "description"), ts))
    else
      None
  }

  // ---------------------------------------------------------------------
  // Storage paths
  // ---------------------------------------------------------------------

  /** `f"alerts/{team}/{severity}.json"` */
  function StoragePath(team: string, severity: string): string {
    "alerts/" + team + "/" + severity + ".json"
  }

  /** The file a record is appended to. */
  function PathOf(r: Record): string {
    StoragePath(r.team, r.severity)
  }

  /** Position of the first `c` in `s`, or `|s|` when there is none. */
  function IndexOf(s: string, c: char): (i: nat)
    ensures i <= |s|
    ensures i < |s| ==> s[i] == c
    ensures forall j :: 0 <= j < i ==> s[j] != c
  {
    if s == [] then 0
    else if s[0] == c then 0
    else 1 + IndexOf(s[1..], c)
  }

  /** Reads a storage path back into its (team, severity) pair, splitting
      the directory part at its first separator. */
  function ParsePath(p: string): Option<(string, string)> {
    if |p| < 13 || p[..7] != "alerts/" || p[|p| - 5..] != ".json" then None
    else
      var middle := p[7..|p| - 5];
      var i := IndexOf(middle, '/');
      if i == |middle| then None else Some((middle[..i], middle[i + 1..]))
  }

  /** A team without a separator is recovered exactly from its path, so
      distinct such keys never share a path string. */
  lemma PathRoundTrip(team: string, severity: string)
    requires '/' !in team
    ensures ParsePath(StoragePath(team, severity)) == Some((team, severity))
  {
    var p := StoragePath(team, severity);
    assert p[..7] == "alerts/";
    assert p[|p| - 5..] == ".json";
    var middle := p[7..|p| - 5];
    assert middle == team + "/" + severity;
    var i := IndexOf(middle, '/');
    assert middle[|team|] == '/';
    assert i == |team|;
    assert middle[..i] == team;
    assert middle[i + 1..] == severity;
  }

  /** Every path that parses is the storage path of what it parses to. */
  lemma ParsedPathIsStoragePath(p: string, team: string, severity: string)
    requires ParsePath(p) == Some((team, severity))
    ensures '/' !in team
    ensures StoragePath(team, severity) == p
  {
  }

  /** Label values are used unsanitised: a separator inside `team` lets two
      different keys write to the same file. */
  lemma PathCollision()
    ensures ("a/b", "c") != ("a", "b/c")
    ensures StoragePath("a/b", "c") == StoragePath("a", "b/c")
  {
  }

  // ---------------------------------------------------------------------
  // The log store as a value
  // ---------------------------------------------------------------------

  /** Load-or-empty: a path with no file reads as the empty log. */
  function LogAt(logs: map<string, seq<Record>>, path: string): seq<Record> {
    if path in logs then logs[path] else []
  }

  /** The store after one kept record: its own log grows by the record at
      the end and every other path is left as it was. */
  function AppendRecord(logs: map<string, seq<Record>>, r: Record): (m: map<string, seq<Record>>)
    ensures m.Keys == logs.Keys + {PathOf(r)}
    ensures m[PathOf(r)] == LogAt(logs, PathOf(r)) + [r]
    ensures forall p :: p in logs && p != PathOf(r) ==> m[p] == logs[p]
  {
    var path := PathOf(r);
    logs[path := LogAt(logs, path) + [r]]
  }

  /** The store after appending `recs` one after the other. No path
      disappears and every old log survives as a prefix of the new one. */
  function AppendAll(logs: map<string, seq<Record>>, recs: seq<Record>): (r: map<string, seq<Record>>)
    ensures logs.Keys <= r.Keys
    ensures forall p :: p in logs ==> logs[p] <= r[p]
    decreases |recs|
  {
    if recs == [] then logs else AppendAll(AppendRecord(logs, recs[0]), recs[1..])
  }

  /** The records of `recs` that belong to `path`, in order. */
  function RecordsAt(recs: seq<Record>, path: string): (r: seq<Record>)
    ensures |r| <= |recs|
    ensures forall x :: x in r ==> x in recs && PathOf(x) == path
    decreases |recs|
  {
    if recs == [] then []
    else (if PathOf(recs[0]) == path then [recs[0]] else []) + RecordsAt(recs[1..], path)
  }

  lemma {:induction false} RecordsAtConcat(a: seq<Record>, b: seq<Record>, path: string)
    ensures RecordsAt(a + b, path) == RecordsAt(a, path) + RecordsAt(b, path)
    decreases |a|
  {
    if a != [] {
      var head := if PathOf(a[0]) == path then [a[0]] else [];
      assert (a + b)[0] == a[0];
      assert (a + b)[1..] == a[1..] + b;
      RecordsAtConcat(a[1..], b, path);
      assert RecordsAt(a + b, path) == head + RecordsAt(a[1..] + b, path);
      assert RecordsAt(a, path) == head + RecordsAt(a[1..], path);
    } else {
      assert a + b == b;
    }
  }

  lemma {:induction false} AppendAllConcat(logs: map<string, seq<Record>>, a: seq<Record>, b: seq<Record>)
    ensures AppendAll(logs, a + b) == AppendAll(AppendAll(logs, a), b)
    decreases |a|
  {
    if a == [] {
      assert a + b == b;
    } else {
      assert (a + b)[1..] == a[1..] + b;
      AppendAllConcat(AppendRecord(logs, a[0]), a[1..], b);
    }
  }

  /** Append-only and per key: after a sequence of records is stored, the
      log at any path is the old log (empty if there was none) followed by
      exactly the records for that path, in order. */
  lemma {:induction false} AppendAllAt(logs: map<string, seq<Record>>, recs: seq<Record>, path: string)
    ensures LogAt(AppendAll(logs, recs), path) == LogAt(logs, path) + RecordsAt(recs, path)
    decreases |recs|
  {
    if recs != [] {
      AppendAllAt(AppendRecord(logs, recs[0]), recs[1..], path);
    }
  }

  /** A path exists after the records are stored exactly when it existed
      before or one of the records was appended to it. */
  lemma {:induction false} AppendAllDomain(logs: map<string, seq<Record>>, recs: seq<Record>, path: string)
    ensures path in AppendAll(logs, recs) <==> path in logs || RecordsAt(recs, path) != []
    decreases |recs|
  {
    if recs != [] {
      AppendAllDomain(AppendRecord(logs, recs[0]), recs[1..], path);
    }
  }

  /** Paths that no record is written to keep their log, or stay absent. */
  lemma AppendAllUntouched(logs: map<string, seq<Record>>, recs: seq<Record>, path: string)
    requires RecordsAt(recs, path) == []
    ensures path in AppendAll(logs, recs) <==> path in logs
    ensures path in logs ==> AppendAll(logs, recs)[path] == logs[path]
  {
    AppendAllDomain(logs, recs, path);
    AppendAllAt(logs, recs, path);
  }

  // ---------------------------------------------------------------------
  // A batch as a value
  // ---------------------------------------------------------------------

  /** The records of the kept alerts of a batch, in input order. */
  function Kept(alerts: seq<RawAlert>, ts: string): (r: seq<Record>)
    ensures |r| <= |alerts|
    ensures forall x :: x in r ==> x.timeStamp == ts && x.team != "" && x.severity != ""
    decreases |alerts|
  {
    if alerts == [] then []
    else
      match Normalize(alerts[0], ts)
      case None => Kept(alerts[1..], ts)
      case Some(rec) => [rec] + Kept(alerts[1..], ts)
  }

  /** `Kept` on a one-alert batch (see `KeptSingle`): the alert's record,
      or none when it is skipped. */
  function KeptOne(alert: RawAlert, ts: string): seq<Record> {
    match Normalize(alert, ts)
    case None => []
    case Some(rec) => [rec]
  }

  /** In-order processing: a batch keeps what its parts keep, in order. */
  lemma {:induction false} KeptConcat(a: seq<RawAlert>, b: seq<RawAlert>, ts: string)
    ensures Kept(a + b, ts) == Kept(a, ts) + Kept(b, ts)
    decreases |a|
  {
    if a == [] {
      assert a + b == b;
    } else {
      assert (a + b)[1..] == a[1..] + b;
      KeptConcat(a[1..], b, ts);
    }
  }

  lemma KeptSingle(alert: RawAlert, ts: string)
    ensures Kept([alert], ts) == KeptOne(alert, ts)
  {
  }

  /** A record is sent for the batch exactly when some alert of the batch
      normalizes to it. */
  lemma {:induction false} KeptMembers(alerts: seq<RawAlert>, ts: string, r: Record)
    ensures r in Kept(alerts, ts) <==>
            exists i :: 0 <= i < |alerts| && Normalize(alerts[i], ts) == Some(r)
    decreases |alerts|
  {
    if alerts != [] {
      KeptMembers(alerts[1..], ts, r);
      if exists i :: 0 <= i < |alerts| && Normalize(alerts[i], ts) == Some(r) {
        var i :| 0 <= i < |alerts| && Normalize(alerts[i], ts) == Some(r);
        if i > 0 {
          assert alerts[1..][i - 1] == alerts[i];
        }
      }
      if exists i :: 0 <= i < |alerts[1..]| && Normalize(alerts[1..][i], ts) == Some(r) {
        var i :| 0 <= i < |alerts[1..]| && Normalize(alerts[1..][i], ts) == Some(r);
        assert alerts[i + 1] == alerts[1..][i];
      }
    }
  }

  /** A batch in which every alert carries both routing keys keeps one
      record per alert, position by position. */
  lemma {:induction false} KeptAllValid(alerts: seq<RawAlert>, ts: string)
    requires forall i :: 0 <= i < |alerts| ==> Normalize(alerts[i], ts).Some?
    ensures |Kept(alerts, ts)| == |alerts|
    ensures forall i :: 0 <= i < |alerts| ==> Kept(alerts, ts)[i] == Normalize(alerts[i], ts).value
    decreases |alerts|
  {
    if alerts != [] {
      assert forall i :: 0 <= i < |alerts[1..]| ==> alerts[1..][i] == alerts[i + 1];
      KeptAllValid(alerts[1..], ts);
    }
  }

  /** Extending the processed prefix by one alert adds that alert's record,
      if any, to the messages and to the store. */
  lemma KeptStep(logs: map<string, seq<Record>>, alerts: seq<RawAlert>, ts: string, i: nat)
    requires i < |alerts|
    ensures Kept(alerts[..i + 1], ts) == Kept(alerts[..i], ts) + KeptOne(alerts[i], ts)
    ensures Normalize(alerts[i], ts).None? ==>
      AppendAll(logs, Kept(alerts[..i + 1], ts)) == AppendAll(logs, Kept(alerts[..i], ts))
    ensures Normalize(alerts[i], ts).Some? ==>
      AppendAll(logs, Kept(alerts[..i + 1], ts))
        == AppendRecord(AppendAll(logs, Kept(alerts[..i], ts)), Normalize(alerts[i], ts).value)
  {
    assert alerts[..i + 1] == alerts[..i] + [alerts[i]];
    KeptConcat(alerts[..i], [alerts[i]], ts);
    KeptSingle(alerts[i], ts);
    AppendAllConcat(logs, Kept(alerts[..i], ts), KeptOne(alerts[i], ts));
    if Normalize(alerts[i], ts).Some? {
      var rec := Normalize(alerts[i], ts).value;
      var before := AppendAll(logs, Kept(alerts[..i], ts));
      assert [rec][1..] == [];
      assert AppendAll(before, [rec]) == AppendAll(AppendRecord(before, rec), []);
    } else {
      assert Kept(alerts[..i], ts) + [] == Kept(alerts[..i], ts);
    }
  }

  /** Two kept alerts of one batch that share a key are appended to that
      key's log after its old entries, the earlier alert first. */
  lemma SameKeyInOrder(logs: map<string, seq<Record>>, alerts: seq<RawAlert>, ts: string, i: nat, j: nat)
    requires i < j < |alerts|
    requires Normalize(alerts[i], ts).Some? && Normalize(alerts[j], ts).Some?
    requires PathOf(Normalize(alerts[i], ts).value) == PathOf(Normalize(alerts[j], ts).value)
    ensures var ri, rj := Normalize(alerts[i], ts).value, Normalize(alerts[j], ts).value;
            var log := LogAt(AppendAll(logs, Kept(alerts, ts)), PathOf(ri));
            exists k1, k2 :: |LogAt(logs, PathOf(ri))| <= k1 < k2 < |log| && log[k1] == ri && log[k2] == rj
  {
    var ri, rj := Normalize(alerts[i], ts).value, Normalize(alerts[j], ts).value;
    var p := PathOf(ri);
    var a, b, c := alerts[..i], alerts[i + 1..j], alerts[j + 1..];
    assert alerts == a + ([alerts[i]] + (b + ([alerts[j]] + c)));
    KeptConcat(a, [alerts[i]] + (b + ([alerts[j]] + c)), ts);
    KeptConcat([alerts[i]], b + ([alerts[j]] + c), ts);
    KeptConcat(b, [alerts[j]] + c, ts);
    KeptConcat([alerts[j]], c, ts);
    KeptSingle(alerts[i], ts);
    KeptSingle(alerts[j], ts);
    var ka, kb, kc := Kept(a, ts), Kept(b, ts), Kept(c, ts);
    assert Kept(alerts, ts) == ka + ([ri] + (kb + ([rj] + kc)));
    RecordsAtConcat(ka, [ri] + (kb + ([rj] + kc)), p);
    RecordsAtConcat([ri], kb + ([rj] + kc), p);
    RecordsAtConcat(kb, [rj] + kc, p);
    RecordsAtConcat([rj], kc, p);
    assert RecordsAt([ri], p) == [ri];
    assert RecordsAt([rj], p) == [rj];
    var ra, rb, rc := RecordsAt(ka, p), RecordsAt(kb, p), RecordsAt(kc, p);
    AppendAllAt(logs, Kept(alerts, ts), p);
    var old0 := LogAt(logs, p);
    var log := LogAt(AppendAll(logs, Kept(alerts, ts)), p);
    assert log == old0 + (ra + ([ri] + (rb + ([rj] + rc))));
    var k1 := |old0| + |ra|;
    var k2 := k1 + 1 + |rb|;
    assert log[k1] == ri;
    assert log[k2] == rj;
  }

  /** A batch of one `sre`/`critical` alert on an empty store
      creates exactly one log holding the one record; with the contract of
      `Store.ProcessBatch`, that record is also the one message sent. */
  lemma SingleAlertScenario()
    ensures var ts := "20240101-12:00:00";
      var alert := RawAlert(Some(map["team" := "sre", "severity" := "critical"]),
                            Some(map["summary" := "disk full", "description" := "d1"]));
      var rec := Record("sre", "critical", Some("disk full"), Some("d1"), ts);
      && Kept([alert], ts) == [rec]
      && AppendAll(map[], [rec]) == map["alerts/sre/critical.json" := [rec]]
  {
    var ts := "20240101-12:00:00";
    var alert := RawAlert(Some(map["team" := "sre", "severity" := "critical"]),
                          Some(map["summary" := "disk full", "description" := "d1"]));
    var rec := Record("sre", "critical", Some("disk full"), Some("d1"), ts);
    KeptSingle(alert, ts);
    assert [rec][1..] == [];
    assert PathOf(rec) == "alerts/sre/critical.json";
    assert AppendAll(map[], [rec]) == AppendRecord(map[], rec);
    assert LogAt(map[], PathOf(rec)) + [rec] == [rec];
  }

  // ---------------------------------------------------------------------
  // The handler, on mutable state
  // ---------------------------------------------------------------------

  /** The files under `alerts/` and the messages sent to the chat. */
  class Store {
    var logs: map<string, seq<Record>>
    var sent: seq<Record>

    constructor (existing: map<string, seq<Record>>)
      ensures logs == existing && sent == []
    {
      logs := existing;
      sent := [];
    }

    /** Reads the log at `path`; a missing file yields the empty list. */
    method Load(path: string) returns (log: seq<Record>)
      ensures path in logs ==> log == logs[path]
      ensures path !in logs ==> log == []
    {
      log := [];
      if path in logs {
        log := logs[path];
      }
    }

    /** `send_message(chat_id, json.dumps(alert_data))` */
    method Send(rec: Record)
      modifies this`sent
      ensures sent == old(sent) + [rec]
    {
      sent := sent + [rec];
    }

    /** `json.dump(existing_alerts, f)` over the file at `path`. */
    method Save(path: string, log: seq<Record>)
      modifies this`logs
      ensures logs == old(logs)[path := log]
    {
      logs := logs[path := log];
    }

    /** One iteration of the handler's loop. */
    method IngestAlert(alert: RawAlert, ts: string)
      modifies this
      ensures Normalize(alert, ts).None? ==> logs == old(logs) && sent == old(sent)
      ensures Normalize(alert, ts).Some? ==>
        var rec := Normalize(alert, ts).value;
        logs == AppendRecord(old(logs), rec) && sent == old(sent) + [rec]
    {
      var labels := OrEmpty(alert.labels);
      var annotations := OrEmpty(alert.annotations);
      var team := Field(labels, "team");
      var severity := Field(labels, "severity");
      var summary := Field(annotations, "summary");
      var description := Field(annotations, "description");
      if Truthy(team) && Truthy(severity) {
        var path := StoragePath(team.value, severity.value);
        var rec := Record(team.value, severity.value, summary, description, ts);
        var existing := Load(path);
        existing := existing + [rec];
        Send(rec);
        Save(path, existing);
      }
    }

    /** The handler's loop over a batch, all records stamped with `ts`. */
    method ProcessBatch(alerts: seq<RawAlert>, ts: string)
      modifies this
      ensures sent == old(sent) + Kept(alerts, ts)
      ensures logs == AppendAll(old(logs), Kept(alerts, ts))
    {
      for i := 0 to |alerts|
        invariant sent == old(sent) + Kept(alerts[..i], ts)
        invariant logs == AppendAll(old(logs), Kept(alerts[..i], ts))
      {
        KeptStep(old(logs), alerts, ts, i);
        IngestAlert(alerts[i], ts);
      }
      assert alerts[..|alerts|] == alerts;
    }

    /** The `/webhook` handler. `isJson` is the request's content type
        check; `alerts` is the payload's `alerts` member (`None` when it is
        missing or null); `ts` is the batch's timestamp. */
    method Webhook(isJson: bool, alerts: Option<seq<RawAlert>>, ts: string) returns (reply: Reply)
      modifies this
      ensures reply == InvalidContentType <==> !isJson
      ensures reply == NoAlerts <==> isJson && (alerts == None || alerts == Some([]))
      ensures reply != Processed ==> logs == old(logs) && sent == old(sent)
      ensures reply == Processed ==>
        && sent == old(sent) + Kept(alerts.value, ts)
        && logs == AppendAll(old(logs), Kept(alerts.value, ts))
    {
      if !isJson {
        return InvalidContentType;
      }
      var batch := if alerts.Some? then alerts.value else [];
      if batch == [] {
        return NoAlerts;
      }
      ProcessBatch(batch, ts);
      reply := Processed;
    }
  }
}
