# Manager session broker (arch/session) — a Dafny model

This project models the manager `Session` of `arch/session/_session.py`: the
single-threaded broker that owns at most one computing session and a registry
of storage sessions keyed by storage-session id. It covers

- construction from the engine configuration (fails without a computing engine);
- engine dispatch: `init_computing` builds STANDALONE or SPARK sessions and
  refuses every other engine; `_get_or_create_storage` has a closed `elif`
  chain over seven storage engines (STANDALONE, MYSQL, HDFS, HIVE,
  LINKIS_HIVE, PATH, LOCALFS — here `StandaloneStore`, `MySql`, `Hdfs`,
  `Hive`, `LinkisHive`, `Path`, `LocalFs`);
- get-or-create of storage sessions: by id, then reuse by engine (the loop
  over the registry in insertion order), then creation;
- `get_table` over an abstract table-metadata store;
- best-effort teardown: storage sessions first, each with a destroy attempt
  and a record deletion, then the computing session (stop, kill only if stop
  failed, record deletion regardless); `__exit__` runs it and does not
  suppress exceptions;
- the process-wide session slot (`as_global` / `get_global`) and
  `computing_session.init`, which composes construction, `as_global` and
  `init_computing`.

Modelling choices:

- `Session` is a Dafny class with the source's state: `computingType`,
  `computing` (the slot), `storage` (the dict) and `order` (the dict's keys in
  insertion order, which is the order Python iterates it). `Valid()` keeps
  `order` and the dict's keys in step, every session registered under its own
  id, and at most one session per storage engine.
- Ids are strings where `""` stands for both `None` and the empty string,
  which the source treats alike (`if not session_id`). The value of
  `uuid.uuid1()` is an argument (`uuid`).
- Engine calls that can fail (`stop`, `kill`, `destroy`) succeed or fail
  according to an input `Faults`: the sets of engine-session ids whose call
  raises. The session-record store is a ghost set of `Record`s and the calls
  made during teardown are a ghost trace of `Event`s.
- `get_session_from_record` is not defined in the source. It is modelled as
  reopening the sessions recorded under the manager session id: computing
  records through `_init_computing_if_not_valid` and storage records through
  `_get_or_create_storage` with `record=False`. The rows the record store
  returns are an argument. Teardown then covers the sessions as they stand
  after this replay.
- Engine constructors are represented by the session value they return
  (`StorageSession(id, engine)`, `ComputingSession(id, engine)`); a table
  obtained from a storage session is a `TableHandle` naming that session.

Three behaviours are kept as the code has them, although a broker of this kind
would be expected to behave otherwise:

- With the default `record=True`, `_get_or_create_storage` saves a record and
  builds no session, then fails reading an unbound `storage_session` (see
  Findings). `GetTable` therefore succeeds only through an existing session
  on the table's engine, and otherwise fails after writing a record.
- `init_computing` saves no session record.
- Teardown never empties the computing slot or the storage registry:
  `DestroyAllSessions` keeps every session they held (the replay may only add
  sessions reopened from recorded rows), so a second call attempts every stop and destroy again, and raises nothing either time.
  When the second call's replay reopens no new session (for example, with no recorded rows), its record
  deletions remove nothing more (`Teardown.PurgeIdempotent`). A session that the replay reopens only on
  the second call has its record deleted by that call.

## Model

| member | source | states |
|---|---|---|
| `Engines.ComputingDispatch` | arch/session/_session.py:88-102 | a computing session is built exactly for STANDALONE and SPARK, carrying the requested id and that engine |
| `Engines.StorageDispatch` | arch/session/_session.py:126-155 | a storage session is built exactly for the seven listed engines, carrying the requested id and that engine; no engine or any other engine builds nothing |
| `ManagerSession.Session.constructor` | arch/session/_session.py:53-58 | a new broker has an empty computing slot, an empty storage registry and the configured engines |
| `ManagerSession.Session.Create` | arch/session/_session.py:44-61 | construction fails exactly when no computing engine is configured; otherwise the broker's id is the caller's, or the generated one when none is given |
| `ManagerSession.GlobalSlot.constructor` | arch/session/_session.py:30 | the process-wide session slot starts empty |
| `ManagerSession.GlobalSlot.GetGlobal` | arch/session/_session.py:32-34 | returns the session last installed in the process-wide slot |
| `ManagerSession.Session.AsGlobal` | arch/session/_session.py:36-42 | installs this broker in the process-wide slot and returns it |
| `ManagerSession.SessionIdFor` | arch/session/_session.py:84 | (also line 109) a computing or storage session id is the caller's when given, otherwise a non-empty id starting with `<session id>_computing_` or `<session id>_storage_` |
| `ManagerSession.Session.IsComputingValid` | arch/session/_session.py:199-201 | true exactly when the computing slot holds a session; `InitComputing` refuses exactly when it is true |
| `ManagerSession.Session.InitComputing` | arch/session/_session.py:81-102 | with a computing session present it fails and the session is unchanged; otherwise it succeeds exactly for STANDALONE and SPARK, filling the slot with a session on that engine under the chosen id, and any other engine fails "not supported" with the slot still empty |
| `ManagerSession.Session.InitComputingIfNotValid` | arch/session/_session.py:207-217 | with an empty slot it initialises (and propagates the failure) and reports true; with a session present it changes nothing and reports whether that session has the queried id |
| `ManagerSession.Session.FindByEngine` | arch/session/_session.py:117-119 | returns a registered session on the requested engine, and nothing exactly when no registered session runs on it |
| `ManagerSession.Session.GetOrCreateStorage` | arch/session/_session.py:104-159 | (also the public `storage`, lines 192-193) an id already registered returns that exact session with registry and records unchanged; otherwise a session on the requested (or configured) engine is reused with nothing changed; otherwise the creation step decides: a created session is inserted under its id so the registry gains exactly that key, a failure leaves the registry unchanged, and a record is added exactly when one was asked for; the one-session-per-engine invariant is kept |
| `ManagerSession.CreationAsWritten` | arch/session/_session.py:121-157 | the creation step as its branches run, with `StorageEngine` bound: with `record` the record is saved and the outcome is the unbound-variable failure; without it, the seven listed engines build a session with the new id and every other engine fails "not implemented" |
| `ManagerSession.CreationIntended` | arch/session/_session.py:121-157 | the creation step as evidently intended: the record is saved when asked for, and a session is built exactly for the seven listed engines |
| `ManagerSession.RecordedCreationBuildsNothing` | arch/session/_session.py:121-157 | without a record the two creation steps agree; with one, they disagree on building a session exactly for the listed engines |
| `ManagerSession.Session.GetTable` | arch/session/_session.py:161-168 | no metadata gives "not found" without an error and no change; a returned table names the requested table and a registered session on the recorded engine; the registry never changes, and when no session serves that engine the call fails after saving a record |
| `Teardown.PurgeEachIsPurge` | arch/session/_session.py:239-247 | deleting the records of the sessions one at a time, as the teardown loop does, leaves the same ledger as deleting them all at once: every record of theirs gone, every other record kept |
| `Teardown.StorageTeardown` | arch/session/_session.py:239-247 | for the k-th registered session the trace holds a destroy attempt (failing exactly for injected faults) followed by its record deletion |
| `Teardown.StorageTeardownTargets` | arch/session/_session.py:239-247 | storage teardown attempts to destroy every registered session and deletes every record once each, in insertion order, whichever destroys fail, and stops or kills nothing |
| `Teardown.ComputingTeardownShape` | arch/session/_session.py:226-237 | an empty slot gives no calls; otherwise stop comes first, kill is attempted exactly when stop failed, and the record deletion comes last whatever kill did |
| `Teardown.TeardownCoversEverySession` | arch/session/_session.py:219-247 | teardown replays the records first, destroys every storage session, stops only the computing session and deletes the record of every owned session |
| `Teardown.TeardownStorageFirst` | arch/session/_session.py:221-223 | every storage destroy comes before any computing stop or kill |
| `Teardown.PurgeIdempotent` | arch/session/_session.py:237-247 | deleting the same records a second time removes nothing more |
| `ManagerSession.Session.DestroyStorageSession` | arch/session/_session.py:239-247 | the calls made are the storage teardown of the registry in insertion order, the records of all registered sessions are deleted, and the registry is unchanged |
| `ManagerSession.Session.DestroyComputingSession` | arch/session/_session.py:226-237 | the calls made are the computing teardown of the slot, its record is deleted, and the slot is unchanged |
| `ManagerSession.Session.ReplaySessionRecords` | arch/session/_session.py:207-221 | every session recorded under this manager id is held afterwards: the computing slot is filled unless its engine has no branch, and each storage record is served by the session under its id or one on its engine unless that engine has no branch; sessions already held are kept, the ledger is unchanged, and every session added (a storage id, or a computing session filling an empty slot) was reopened from a recorded row of this manager under the id that row names |
| `ManagerSession.Session.DestroyAllSessions` | arch/session/_session.py:219-224 | after the replay (with its guarantees), the calls made are the full teardown of the slot and registry as they then stand, the records of every owned session are deleted, and nothing is raised; the slot and registry still hold every session they held, and hold no others beyond those reopened from recorded rows, so with no recorded rows the teardown covers exactly the sessions held before the call |
| `ManagerSession.Session.Exit` | arch/session/_session.py:70-79 | runs `DestroyAllSessions` with the same guarantees (the configured computing engine unchanged, the added sessions only those reopened from records, the full teardown trace) and returns false, so an exception from the `with` body is not suppressed |
| `ManagerSession.ComputingSessionInit` | arch/session/_session.py:263-266 | without a computing engine nothing is installed; otherwise a fresh broker with the generated id is the global session, whose computing session exists exactly for STANDALONE and SPARK, and which stays global even when that fails |

## Left out

- Logging and the `logger` option: side output only.
- `uuid.uuid1()`: each generated id is an argument; its uniqueness is not modelled.
- The engine constructors, their `options` argument and the dynamic imports: only which branch runs is kept.
- `get_table_meta` and `persistent`: the metadata store is an abstract map from (name, namespace) to engine, and persisting data is not modelled.
- `save_record` and `delete_session_record` are not defined in the source: they act on a ghost record set, and a failure of the record store is not modelled.
- ReplaySessionRecords: `get_session_from_record` is not defined in the source; its reopening of recorded sessions is inferred from `_init_computing_if_not_valid` (whose warning compares against a session id read back from the record store) and the `record=False` keyword, and a record that cannot be reopened is skipped rather than raised.
- A storage session's own `get_table` is foreign: the model returns a handle naming the session and the table and does not model an absent table there.
- `is_federation_valid`: it reads an attribute that is never set.
- The parties info and the `session_id`, `computing`, `parties` properties, `_open` and `__enter__`: plain reads of fields or `self`.
- The `computing_session.parallelize` and `computing_session.stop` helpers: they delegate to the computing engine.
- The `record` keyword that `_init_computing_if_not_valid` passes to `init_computing` is ignored there, as in the source.
- Concurrency: the broker is single-threaded.
- CreationAsWritten: the module never imports `StorageEngine` (lines 19-24), so as written the `elif` chain at line 126 raises `NameError` whenever it is reached (`record=False` with no session found); the model treats `StorageEngine` as the storage-engine enum.
- GetOrCreateStorage: follows `CreationAsWritten`, so it assumes `StorageEngine` is bound for the `record=False` creation path, where the module as written raises `NameError` at line 126.
- GetTable: the module never imports `StorageSessionBase`, so as written `get_table_meta` (line 172) raises `NameError` on every call; the model treats it as the table-metadata store.
- GetTable: states the returned table's engine only when the generated storage id is not already a registered key.

## Findings

| source | as written | input that shows it | evidently intended | confidence | as-written member | corrected member |
|---|---|---|---|---|---|---|
| arch/session/_session.py:121-157 | `if record:` saves the record and is followed by `elif` on the engine, so with `record=True` no engine branch runs and line 157 reads an unbound `storage_session` | `_get_or_create_storage(storage_engine=STANDALONE)` (default `record=True`) on a broker with no storage session: a record is saved, then `UnboundLocalError` | save the record when asked, then dispatch on the engine and register the session | high; not executed | `ManagerSession.CreationAsWritten` (discrepancy in `ManagerSession.RecordedCreationBuildsNothing`) | `ManagerSession.CreationIntended` |

The broker's `GetOrCreateStorage` keeps the as-written step, since it models
the code as it stands; `CreationIntended` is the definition it would use once
the `if`/`elif` is split into two statements.
