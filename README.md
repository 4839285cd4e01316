# Alert-manager webhook, modelled in Dafny

This project models the alert-ingestion handler of the alert-manager
webhook (`app.py`, the `/webhook` route). The handler receives a batch of
monitoring alerts and takes one timestamp for the whole batch. For each
alert it reads the routing labels `team` and `severity` and the annotations
`summary` and `description`. It drops the alert when either routing label
is missing or empty. Otherwise it builds a record, appends it to the JSON
log at `alerts/<team>/<severity>.json` (a missing file counts as an empty
log), sends the record to the chat and rewrites the file.

Everything lives in `app.dfy`, module `App`:

- Values: `RawAlert` is one entry of the `alerts` array, `Record` is the
  persisted and sent form of an alert, and `Reply` is one of the handler's
  three answers.
- Pure specification: `Normalize` (field extraction and the skip rule) and
  `StoragePath`. `LogAt` loads a log, or gives the empty log. `AppendRecord`
  and `AppendAll` give the store after one record or after a sequence of
  records. `Kept` gives the records of a batch's kept alerts, in order.
  `RecordsAt` gives the records for one path, in order.
- State: class `Store` holds `logs`, a map from file path to the parsed
  log, and `sent`, the messages sent so far in order. Its methods follow the
  handler step by step: `Load`, `Send`, `Save`, one loop iteration
  (`IngestAlert`), the loop (`ProcessBatch`) and the whole handler
  (`Webhook`). The contract of `ProcessBatch` ties the new state to
  `AppendAll` and `Kept`. The lemmas about those functions state the
  handler's guarantees:
  - logs are append-only, per key;
  - keys that are not written keep their logs or stay absent;
  - alerts are processed in input order;
  - same-key alerts are appended in input order;
  - one message is sent per kept alert;
  - every record of a batch carries the batch's timestamp.

Inputs that the handler gets from its environment become parameters. The
clock (`get_timestamp`) becomes the `ts` argument. The content-type check
(`request.is_json`) becomes the `isJson` flag. The payload's `alerts` member
becomes an `Option` that is `None` when the member is missing or null.

The code does not sanitise paths, reports no corrupt log, and keeps no
per-alert counts or error list; the model adds none of these. The code sends
the message (app.py:76) before it rewrites the file (app.py:79), and
`IngestAlert` keeps that order.

## Model

| member | source | states |
|---|---|---|
| `App.Normalize` | app.py:36-61 | An alert is kept exactly when its `labels` hold a non-empty `team` and a non-empty `severity`. A missing `labels` or `annotations` member reads as an empty object. The kept record copies `team` and `severity` from the labels. It copies `summary` and `description` from the annotations, or has none when they are absent. Its timestamp is the batch's `ts`. |
| `App.StoragePath` | app.py:48-49 | The path of a key is `alerts/<team>/<severity>.json`. The function has no contract of its own; it is pinned down by `PathRoundTrip` and `ParsedPathIsStoragePath`, which make it invertible on teams without `/`, and `PathCollision`, which shows it is not one-to-one otherwise. |
| `App.PathRoundTrip` | app.py:48-49 | For a team without `/`, the storage path `alerts/<team>/<severity>.json` parses back to exactly (team, severity). So distinct such keys never share a path string. |
| `App.ParsedPathIsStoragePath` | app.py:48-49 | Any path that parses is exactly the storage path of the pair it parses to, and that pair's team has no `/`. |
| `App.PathCollision` | app.py:48-49 | Label values go into the path unsanitised. So two different keys, `("a/b","c")` and `("a","b/c")`, write to the same file. |
| `App.LogAt` | app.py:64-67 | Load-or-empty: the stored log at a path, or the empty log when there is no file. The function has no contract of its own; `AppendRecord` and `AppendAllAt` state their results through it. |
| `App.AppendRecord` | app.py:64-79 | Storing one record adds its path to the store. That path's log becomes the previous log, or the empty log when there was no file, with the record at the end. Every other path keeps its log. |
| `App.AppendAll` | app.py:35-79 | The total effect of a batch's kept records on the files: no path disappears and every old log is a prefix of the new one. It is pinned down by `AppendAllAt`, `AppendAllDomain` and `AppendAllConcat`. |
| `App.AppendAllAt` | app.py:64-79 | After a sequence of records is stored, the log at any path equals the old log (empty if absent) followed by exactly that path's records, in order. Earlier entries are never changed. |
| `App.AppendAllDomain` | app.py:64-79 | A path has a log after storing exactly when it had one before or some stored record belongs to it. |
| `App.AppendAllUntouched` | app.py:78-79 | A path that no record is written to keeps its log, or stays absent. |
| `App.Kept` | app.py:35-61 | The records kept from a batch are at most as many as its alerts. Every kept record has non-empty `team` and `severity` and carries the batch's timestamp. |
| `App.KeptConcat` | app.py:35 | Alerts are processed in input order: a batch `a + b` keeps what `a` keeps followed by what `b` keeps. |
| `App.KeptMembers` | app.py:35-61 | A record is kept, and so sent, exactly when some alert of the batch normalizes to it. |
| `App.KeptAllValid` | app.py:35-61 | When every alert carries both routing keys, there is exactly one record per alert, position by position. |
| `App.SameKeyInOrder` | app.py:35-79 | Two kept alerts of a batch with the same key are both appended to that key's log after its old entries, and the earlier alert comes first. |
| `App.SingleAlertScenario` | app.py:28-79 | One `sre`/`critical` alert on an empty store gives exactly one log, `alerts/sre/critical.json`. The log holds one record with the alert's fields and timestamp. The lemma speaks of the store only; together with the contract of `Store.ProcessBatch`, its `Kept` clause makes that record the batch's only message. |
| `App.Store.Load` | app.py:64-67 | Reading a path gives the stored log, or the empty log when there is no file. |
| `App.Store.Send` | app.py:73-76 | Sending appends the record to the sent messages and changes nothing else. |
| `App.Store.Save` | app.py:78-79 | Writing replaces the log at one path, and only that path. |
| `App.Store.IngestAlert` | app.py:36-79 | A skipped alert changes neither the logs nor the messages. A kept alert's record is appended to its own log and sent once. |
| `App.Store.ProcessBatch` | app.py:35-79 | After the loop, the messages sent are the old messages followed by exactly the kept records, in input order. The logs are the old logs with those records appended per key, in input order. |
| `App.Store.Webhook` | app.py:22-81 | A non-JSON request is answered `InvalidContentType`; a missing, null or empty `alerts` list is answered `NoAlerts`. Both leave the logs and messages unchanged. Any other batch is processed as in `ProcessBatch` and answered `Processed`. |

## Left out

- HTTP framing: Flask routing, `request.get_json`, the JSON response bodies and status codes (app.py:22-26, 81, 83-84). These become the `isJson` flag, the `alerts` argument and the three-valued `Reply`.
- The chat client: `telebot`, `dotenv`, the `BOT_TOKEN` and `chat_id` environment lookups and `app/bot.py` (app.py:4-16, 75). These are foreign calls and configuration. Sending is modelled as appending to `sent` and never fails.
- The clock: `datetime.now` in `get_timestamp` (app.py:18-19). The timestamp is an input to the model, and its text format is not checked.
- JSON text: `json.dumps` for the message and `json.dump(..., indent=2)` for the file (app.py:73, 79). The message and the file contents are modelled as the record and the record sequence themselves.
- A log file that does not parse: `json.load` raises and aborts the request (app.py:67). Logs are modelled as already-parsed sequences.
- Directory creation with `os.makedirs` (app.py:52). It is implicit in the map from paths to logs.
- Files are identified by path-string equality. `.` and `..` segments, repeated separators and case-insensitive file systems, which make different strings name one file (`("a","b")` and `("a","./b")` both open `alerts/a/b.json`), are not modelled; `AppendRecord` and `AppendAllUntouched` leave every other path string unchanged, not every other file.
- A `severity` containing `/`: `os.makedirs` (app.py:52) creates only `alerts/<team>`, so unless that deeper directory already exists the write at app.py:78 raises after the message has been sent (app.py:76), and the rest of the batch is aborted. The model does not track directories and simply appends.
- Other falsy `alerts` values: `if not alerts` (app.py:32) also answers "No alerts to process" for `{}`, `""`, `0` and `false`, and a truthy non-list value is iterated as Python iterates it. The model types `alerts` as an optional list, so these values cannot be given.
- Payload shapes that make the handler raise: `labels` or `annotations` that are null or not objects, alert entries that are not objects, and a payload that is not an object. The model types these as string maps. For the same reason, non-string label values (numbers, booleans) and their truthiness are not modelled.
- Concurrency between simultaneous requests: the read-modify-write of a log file is unguarded, and that race is not modelled.
- A failure mid-batch (a send or a write raising). The model has no failures, so the kept records up to that point reaching the files and the chat is not modelled.
