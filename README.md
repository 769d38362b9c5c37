# mqtt-cli connection registry, modelled in Dafny

mqtt-cli is an interactive shell that keeps several MQTT broker connections
open at once. This project models its core: the shared `state` object. That
object holds the ordered list of connection records and the optional
`current` selection. The model covers the lifecycle handlers that the
transport's `connect`, `error` and `close` events run on a record. It also
covers the commands that read or change the registry and the persisted list
of saved profiles.

The model has four modules:

- `Records` (records.dfy) holds the data: `Profile` (url, clientId,
  username, password, which is also what gets persisted), `Status`
  (`Connecting | Connected | Reconnect | Error | Backoff | Kill`), `Record`,
  the reconnect cap `MaxReconnects = 3` and the retry period of 5000 ms. It
  also defines `WellFormed`, the per-record invariant: the counter never
  exceeds 3, a record in backoff has used all three attempts, and a record
  still connecting has never been closed.
- `Lifecycle` (lifecycle.dfy) is the event handlers as one pure transition
  function `Step(record, event)`. `Run` applies `Step` to a sequence of
  events. The lemmas here cover the reconnect counter, the backoff state and
  the `end(true)` calls.
- `Connections` (connections.dfy) holds pure functions over the record list.
  They cover duplicate detection, the usable gate, the identities that
  `kill` writes back, the records that `reloadConnections` appends, and the
  rows of the listing.
- `Cli` (cli.dfy) is the class `Registry`. Its fields are `connections`,
  `current`, `storage` (the parsed `connections` entry of local storage) and
  `calls`. `calls` logs, in order, every call made on the MQTT transport:
  connect, `end(true)`, publish, subscribe and unsubscribe. Each handler and
  command is a method. Each method states its entire new state and keeps
  `Valid()`: every record is at its own index and is well formed. A command
  whose `validate` fails returns `Rejected(reason)` and changes nothing.

Program behaviour kept as the code has it:

- Duplicate detection compares url, clientId and username, not the password.
- The `connect` handler never resets the reconnect counter. So the counter
  is the number of closes seen, capped at 3 (`RunCountsCloses`).
- The `connect` and `error` handlers have no guard for killed records
  (`Step`).
- index.js:296 is a comparison, so `kill` does not clear the selection.
- index.js:307 clears `state.state`, so `restart` does not clear the
  selection either.
- `kill` rewrites storage with every record that is not killed, saved or
  not (`Kill`, `KillDropsOneProfile`).
- `reloadConnections` adds stored profiles without any duplicate check. It
  filters the file profiles once, against the registry as it stands after
  the stored profiles are in. Entries within the file are therefore never
  compared with each other (`Kept`, `FileRepeatsKept`).
- `sub` passes `qos || 1`, so QoS 0 becomes 1 (`SubscribeQos`).
- `save` appends the identity again even when it is already stored.

A missing command-line option is modelled as the empty string, since the
program tests options for truthiness. Start-up is the constructor followed
by `Reload`.

## Model

| member | source | states |
|---|---|---|
| Lifecycle.Step | index.js:31-48 | `connect` sets `connected`, and `error` sets `error` and records the message. Neither is guarded against `kill`. `close` leaves a killed record alone. A close once the counter is at 3 gives `backoff` and forces one `end(true)` with the counter unchanged. Any other close gives `reconnect` and adds exactly 1. The counter never decreases. No event produces `kill`. Well-formedness is preserved. |
| Lifecycle.RunCountsCloses | index.js:30-48 | For a record that is not killed and any sequence of events, the counter ends at min(3, start + number of closes). The number of `end(true)` calls equals the closes beyond the cap. The record never becomes `kill` and its identity fields do not change. |
| Lifecycle.KilledIgnoresCloses | index.js:38-41 | A killed record ignores any number of `close` events: it stays the same and no `end(true)` is made. |
| Lifecycle.ClosesStatus | index.js:42-47 | After n > 0 closes in a row, a record that is not killed is in `reconnect` while start + n <= 3, and in `backoff` after that. |
| Lifecycle.FourthCloseBacksOff | index.js:26-48 | A new record is in `reconnect` with counter 3 and no `end` after 3 closes. After the 4th close it is in `backoff` with counter 3 and exactly one `end(true)`. |
| Records.NewRecord | index.js:30 | A new record keeps its index, identity and `save` flag. It is `connecting` with counter 0, no error and not silenced, and it is well formed. |
| Connections.IsDuplicate | index.js:16-24 | True iff some record has the same url, clientId and username and a status other than `backoff` and `kill`. |
| Connections.DuplicateIgnoresPassword | index.js:16-24 | Changing the password never changes whether a connection is a duplicate. |
| Connections.NewRecordBlocks | index.js:26-30 | A record just added blocks a second connection with the same url, clientId and username. |
| Connections.Usable | index.js:83-86 | A usable position is given and in range, and its record is `connected`, so neither in backoff nor killed. Its identity therefore counts as a duplicate, and connecting it again does nothing. |
| Connections.LiveProfiles | index.js:292-293 | The identities written on kill are at most one per record, and each belongs to a record that is not killed. `LiveProfilesComplete` gives the converse and `LiveProfilesAppend` gives the order. |
| Connections.LiveProfilesComplete | index.js:292-293 | The identity of every record that is not killed is written. |
| Connections.LiveProfilesAppend | index.js:292-293 | The identities for two runs of records, one after the other, are the identities of the first run followed by those of the second, so registry order is kept. |
| Connections.LiveProfilesAllLive | index.js:292-293 | With no killed record, every identity is written, in registry order. |
| Connections.KillDropsOneProfile | index.js:290-293 | Killing record n stores the identities that are not killed before and after n, in order. Killing a live record shortens the stored list by exactly one. |
| Connections.Appended | index.js:94-97 | Reloading profiles keeps the existing records. It appends one record per profile, in order, at the next positions, each `connecting` with counter 0 and `save` set. |
| Connections.Kept | index.js:97 | The file profiles that remain are exactly those that are not duplicates of the registry at filter time. `KeptAppend` gives the order and the repeats. |
| Connections.KeptAppend | index.js:97 | The filter decides each file entry on its own: filtering two lists one after the other gives the two filtered lists one after the other. So file order and repeats are kept. |
| Connections.FileRepeatsKept | index.js:97 | A new identity listed twice in the file is added twice. |
| Connections.Reloaded | index.js:94-97 | A reload keeps the existing records as a prefix. It adds exactly one record per stored profile and one per kept file profile. |
| Connections.ReloadedRecords | index.js:94-97 | After the existing records come the stored profiles, in order, then the kept file profiles, in order. Each is a fresh saved record at its own position. |
| Connections.KillThenRestart | index.js:288-310 | After kill and then restart, positions start again at 0. The first records are the stored live identities, in order, each fresh and saved, and each from a record other than the killed one. |
| Connections.Listing | index.js:59-81 | Rows skip killed records and keep registry order. Each row carries its record's own position, and `*` is shown exactly when that position is `current`. |
| Connections.ListingComplete | index.js:63-79 | Every record that is not killed has its row. |
| Cli.ConnectCheck | index.js:115-127 | Connect is refused iff url, clientId, username or password is missing. The reason names the first missing one, in that order. |
| Cli.SentPayload | index.js:208-215 | Without `--js2json` the payload is sent unchanged. With it, the converted payload is sent. If conversion fails, the original payload is sent. |
| Cli.SubscribeQos | index.js:237 | The requested QoS is never 0. A missing QoS or QoS 0 becomes 1, and any other QoS is kept. |
| Cli.Registry.constructor | index.js:9-12 | The registry starts empty with no selection and no transport calls. Storage holds what an earlier session left. |
| Cli.Registry.AddConnection | index.js:26-57 | Appends exactly one `NewRecord` at index = old length, in `connecting` with counter 0. It opens one client with the 5000 ms retry period. Earlier records, the selection and storage are unchanged. |
| Cli.Registry.OnConnect | index.js:31-33 | Only record i's status changes, to `connected`. The counter and error stay. |
| Cli.Registry.OnError | index.js:34-37 | Only record i changes: status `error` and the message recorded. |
| Cli.Registry.OnClose | index.js:38-48 | A killed record: nothing changes. Counter >= 3: `backoff`, counter kept, exactly one `End(i)` logged. Otherwise: `reconnect` and counter + 1, no transport call. Nothing else changes. |
| Cli.Registry.OnMessage | index.js:49-54 | A message is shown iff the record is not silenced. It carries the record's position, username, clientId, topic and payload. |
| Cli.Registry.AddSaved | index.js:96 | The registry becomes `Appended(old, ps)`, with one `Open` call per profile at its new position. |
| Cli.Registry.Reload | index.js:94-102 | The registry becomes `Reloaded(old, storage, file)`, with `Open` calls for the stored profiles and then for the kept file profiles. Storage and the selection are unchanged. |
| Cli.Registry.Connect | index.js:128-138 | If validation fails: refused and nothing changes. If the identity is a duplicate: nothing changes. Otherwise one record is appended and selected, and the identity is stored iff `--save` is given. |
| Cli.Registry.Ls | index.js:59-81 | The rows built record by record equal `Listing(connections, current)`. |
| Cli.Registry.Use | index.js:152-161 | Selects n iff it is given and usable (in range and `connected`). Otherwise refused and nothing changes. |
| Cli.Registry.Silent | index.js:169-183 | For an existing position, sets or clears (`--off`) only that record's silent flag. Otherwise refused and nothing changes. |
| Cli.Registry.Pub | index.js:194-216 | Refused with no transport call unless the selection is usable and topic and payload are given, checked in that order. Otherwise exactly one publish on the selected client, with `SentPayload`. The registry is unchanged. |
| Cli.Registry.Sub | index.js:225-238 | Refused with no transport call unless the selection is usable and a topic is given. Otherwise exactly one subscribe with `SubscribeQos`. |
| Cli.Registry.Unsub | index.js:246-259 | Refused with no transport call unless the selection is usable and a topic is given. Otherwise exactly one unsubscribe on the selected client. |
| Cli.Registry.Save | index.js:263-275 | Refused with no change unless the selection is usable. Otherwise the selected identity is appended to storage and the record is marked saved. |
| Cli.Registry.Kill | index.js:282-300 | For an existing position n: one `End(n)`, record n becomes `kill`, and the length and all other records stay. Storage becomes the identities of all records that are not killed, and `current` is unchanged. Otherwise refused and nothing changes. |
| Cli.Registry.Restart | index.js:304-310 | One `End(k)` for every position, killed records included. The registry is then emptied and reloaded from storage and the file, renumbered from 0. Storage and `current` are unchanged. |

## Left out

- The MQTT transport is not modelled. It appears only as the `calls` log, and events are delivered by calling the handler methods.
- Asynchronous event ordering is not modelled. The handlers capture their record's position, so a handler of a client that `restart` discarded would touch a new or missing record. The model requires the position to be in range.
- Cli.Registry.OnMessage: reads the silent flag from `connections[i]`. The program reads the record object the handler captured, which is the same object until a restart.
- The `try`/`catch` around `reloadConnections` is not modelled. A malformed storage entry or a missing or malformed `connections.json` stops the reload part-way; here both sources are always well-formed lists.
- Local storage and `connections.json` are modelled as in-memory lists of profiles, with no JSON encoding.
- Profiles carry exactly four fields. Extra keys in a stored or file entry are not modelled; such a key (for example `status` or `reconnect`) would override a field of the new record when spread into it.
- Command arguments are natural numbers and strings. Negative or non-numeric positions, a numeric `--payload` and JavaScript's loose `==` between a string and a number are not modelled.
- Connect: a numeric `--url` or `--clientId` is not modelled. Neither option is declared as a string, so `-c 0` is read as the number 0 and refused as missing; the model takes `"0"` as given.
- The `--js2json` conversion evaluates the payload as JavaScript. It is a parameter here, a partial function where failure means the original payload is sent. A value JSON cannot serialise, which makes the publish throw, is not modelled.
- The payload is a string; its UTF-8 encoding into a buffer is not modelled.
- Rendering is not modelled: colours, table layout, the `colors[index % 6]` pick and the listing that connect, kill and reload print. `Ls` returns the rows as values.
- Command registration, option parsing, autocomplete, history, the banner and the `uncaughtException` logger are not modelled.
