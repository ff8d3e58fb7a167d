/**
 * The manager session: a single-threaded broker that owns at most one
 * computing session and a registry of storage sessions keyed by id, builds
 * them through the engine dispatch chains, reuses storage sessions by id and
 * by engine, and tears everything down on a best-effort basis.
 *
 * Id arguments are strings in which "" stands for both Python's `None` and
 * the empty string: the source treats the two alike (`if not session_id`).
 * Every id generated from `uuid1()` is taken as a `uuid` argument.
 */
module ManagerSession {
  import opened Optional
  import opened Engines
  import opened Teardown

  /** The exceptions the broker raises. */
  datatype Error =
    | MissingComputingEngine                                // RuntimeError in __init__
    | ComputingAlreadyValid                                 // RuntimeError in init_computing
    | ComputingNotSupported(computingType: ComputingEngine) // RuntimeError in init_computing
    | StorageNotImplemented(storageEngine: Option<StorageEngine>) // NotImplementedError
    | UnboundStorageSession                                 // UnboundLocalError at the insertion

  datatype Result<T> = Ok(value: T) | Err(error: Error)

  /** The engines named by the service configuration, per category. */
  datatype EngineConfig = EngineConfig(computing: Option<ComputingEngine>, storage: Option<StorageEngine>)

  /** A storage table handle, obtained from the storage session that serves its engine. */
  datatype TableHandle = TableHandle(storageSessionId: string, engine: StorageEngine, name: string, namespace: string)

  /** The key of the table-metadata store. */
  datatype TableKey = TableKey(name: string, namespace: string)

  /** The id given by the caller, or the generated one when none is given. */
  function ChosenId(given: string, generated: string): string {
    if given == "" then generated else given
  }

  /**
   * The id `init_computing` (category "computing") or `_get_or_create_storage`
   * (category "storage") uses: the caller's, or one generated under the
   * manager session's id.
   */
  function SessionIdFor(managerId: string, category: string, given: string, uuid: string): (id: string)
    ensures id != ""
    ensures given != "" ==> id == given
    ensures given == "" ==> managerId + "_" + category + "_" <= id
  {
    ChosenId(given, managerId + "_" + category + "_" + uuid)
  }

  /** Whether some registered storage session runs on engine `e`. */
  ghost predicate Serves(sessions: map<string, StorageSession>, e: Option<StorageEngine>) {
    exists id :: id in sessions && Some(sessions[id].engine) == e
  }

  /** Every session of `small` is registered in `big` under the same id. */
  ghost predicate Extends(big: map<string, StorageSession>, small: map<string, StorageSession>) {
    forall id :: id in small ==> id in big && big[id] == small[id]
  }

  /**
   * After a storage record is replayed, a session serves it: the one under
   * its id, or one on its engine; unless its engine has no branch.
   */
  ghost predicate StorageReopened(sessions: map<string, StorageSession>, id: string, e: Option<StorageEngine>) {
    id in sessions || Serves(sessions, e) || !(e.Some? && e.value in BuildableStorage)
  }

  lemma StorageReopenedGrows(small: map<string, StorageSession>, big: map<string, StorageSession>,
                             id: string, e: Option<StorageEngine>)
    requires Extends(big, small) && StorageReopened(small, id, e)
    ensures StorageReopened(big, id, e)
  {
    if id !in small && Serves(small, e) {
      var k :| k in small && Some(small[k].engine) == e;
      assert k in big && big[k] == small[k];
    }
  }

  /** What `_get_or_create_storage` does once neither lookup found a session. */
  datatype CreationStep = CreationStep(saved: bool, outcome: Result<StorageSession>)

  /**
   * Creation as written: `if record:` saves the record and is followed by the
   * `elif` chain, so with `record` no engine branch runs and the insertion
   * then reads an unbound variable.
   */
  function CreationAsWritten(e: Option<StorageEngine>, id: string, record: bool): (step: CreationStep)
    ensures step.saved == record
    ensures record ==> step.outcome == Err(UnboundStorageSession)
    ensures step.outcome.Ok? <==> !record && e.Some? && e.value in BuildableStorage
    ensures step.outcome.Ok? ==> step.outcome.value == StorageSession(id, e.value)
    ensures !record && step.outcome.Err? ==> step.outcome.error == StorageNotImplemented(e)
  {
    if record then CreationStep(true, Err(UnboundStorageSession))
    else match StorageDispatch(e, id)
      case Some(s) => CreationStep(false, Ok(s))
      case None => CreationStep(false, Err(StorageNotImplemented(e)))
  }

  /** Creation as evidently intended: save the record when asked, then dispatch. */
  function CreationIntended(e: Option<StorageEngine>, id: string, record: bool): (step: CreationStep)
    ensures step.saved == record
    ensures step.outcome.Ok? <==> e.Some? && e.value in BuildableStorage
    ensures step.outcome.Ok? ==> step.outcome.value == StorageSession(id, e.value)
    ensures step.outcome.Err? ==> step.outcome.error == StorageNotImplemented(e)
  {
    match StorageDispatch(e, id)
    case Some(s) => CreationStep(record, Ok(s))
    case None => CreationStep(record, Err(StorageNotImplemented(e)))
  }

  /**
   * Without a record the two agree; with one, the source never builds a
   * session, and it fails to build exactly the sessions whose engine has a
   * branch.
   */
  lemma RecordedCreationBuildsNothing(e: Option<StorageEngine>, id: string, record: bool)
    ensures !record ==> CreationAsWritten(e, id, record) == CreationIntended(e, id, record)
    ensures CreationAsWritten(e, id, record).outcome.Ok? != CreationIntended(e, id, record).outcome.Ok?
        <==> record && e.Some? && e.value in BuildableStorage
    ensures CreationAsWritten(Some(StandaloneStore), id, true).outcome == Err(UnboundStorageSession)
    ensures CreationIntended(Some(StandaloneStore), id, true).outcome == Ok(StorageSession(id, StandaloneStore))
  {
  }

  /** The process-wide current session (`Session.__GLOBAL_SESSION`). */
  class GlobalSlot {
    var current: Session?

    constructor ()
      ensures current == null
    {
      current := null;
    }

    /** `Session.get_global`. */
    method GetGlobal() returns (s: Session?)
      ensures s == current
    {
      s := current;
    }
  }

  class Session {
    const sessionId: string
    const storageEngine: Option<StorageEngine>
    var computingType: ComputingEngine
    var computing: Option<ComputingSession>
    /** The storage-session registry, and its keys in insertion (iteration) order. */
    var storage: map<string, StorageSession>
    var order: seq<string>
    /** The session-record store, as seen by this broker. */
    ghost var ledger: set<Record>
    /** The teardown calls made so far. */
    ghost var trace: seq<Event>

    ghost predicate Valid()
      reads this
    {
      && (computing.Some? ==> computing.value.id != "")
      && (forall i, j :: 0 <= i < j < |order| ==> order[i] != order[j])
      && (forall id :: id in storage <==> id in order)
      && (forall id :: id in storage ==> storage[id].id == id && storage[id].engine in BuildableStorage)
      && (forall a, b :: a in storage && b in storage && storage[a].engine == storage[b].engine ==> a == b)
    }

    /** `is_computing_valid`: whether the computing slot holds a session. */
    function IsComputingValid(): (valid: bool)
      reads this
      ensures valid <==> computing.Some?
    {
      computing != None
    }

    /** The session a record names is held after the record replay. */
    ghost predicate Reopened(rec: Record, uuid: string)
      reads this
    {
      match rec.engine
      case ComputingName(_) => computing.Some? || computingType !in BuildableComputing
      case StorageName(e) =>
        StorageReopened(storage, SessionIdFor(sessionId, "storage", rec.engineSessionId, uuid), ResolvedEngine(e))
    }

    /**
     * Everything the replay of the first `n` rows of `recorded` added, over
     * the storage registry `before` and the slot `slotBefore`, was reopened
     * from one of those rows of this manager, under the id that row names.
     */
    ghost predicate AddedOnlyFromRecords(before: map<string, StorageSession>, slotBefore: Option<ComputingSession>,
                                         recorded: seq<Record>, n: nat, uuid: string)
      reads this
      requires n <= |recorded|
    {
      && (forall id :: id in storage && id !in before ==>
            exists k :: 0 <= k < n && recorded[k].managerId == sessionId && recorded[k].engine.StorageName?
              && id == SessionIdFor(sessionId, "storage", recorded[k].engineSessionId, uuid))
      && (slotBefore.None? && computing.Some? ==>
            exists k :: 0 <= k < n && recorded[k].managerId == sessionId && recorded[k].engine.ComputingName?
              && computing.value == ComputingSession(SessionIdFor(sessionId, "computing", recorded[k].engineSessionId, uuid), computingType))
    }

    constructor (id: string, computingType: ComputingEngine, storageEngine: Option<StorageEngine>, ghost records: set<Record>)
      ensures Valid()
      ensures sessionId == id && this.computingType == computingType && this.storageEngine == storageEngine
      ensures computing.None? && storage == map[] && order == []
      ensures ledger == records && trace == []
    {
      sessionId := id;
      this.computingType := computingType;
      this.storageEngine := storageEngine;
      computing := None;
      storage := map[];
      order := [];
      ledger := records;
      trace := [];
    }

    /**
     * `__init__`: fails when no computing engine is configured; otherwise an
     * empty broker whose id is the caller's or, when none is given, `uuid`.
     */
    static method Create(config: EngineConfig, givenId: string, uuid: string, ghost records: set<Record>)
      returns (r: Result<Session>)
      requires uuid != ""
      ensures config.computing.None? ==> r == Err(MissingComputingEngine)
      ensures config.computing.Some? ==> r.Ok? && fresh(r.value) && r.value.Valid()
      ensures r.Ok? ==> r.value.sessionId == ChosenId(givenId, uuid) && r.value.sessionId != ""
      ensures r.Ok? ==> r.value.computingType == config.computing.value && r.value.storageEngine == config.storage
      ensures r.Ok? ==> r.value.computing.None? && r.value.storage == map[] && r.value.order == []
      ensures r.Ok? ==> r.value.ledger == records && r.value.trace == []
    {
      if config.computing.None? {
        return Err(MissingComputingEngine);
      }
      var s := new Session(ChosenId(givenId, uuid), config.computing.value, config.storage, records);
      return Ok(s);
    }

    /** `as_global`: installs this session as the process-wide one. */
    method AsGlobal(slot: GlobalSlot) returns (r: Session)
      modifies slot
      ensures slot.current == this && r == this
    {
      slot.current := this;
      r := this;
    }

    /**
     * `init_computing`: refuses when a computing session exists, leaving it
     * as it was; otherwise builds one on the configured engine, or refuses an
     * engine without a branch and leaves the slot empty.
     */
    method InitComputing(givenId: string, uuid: string) returns (r: Result<Session>)
      requires Valid()
      modifies this`computing, this`computingType
      ensures Valid()
      ensures computingType == old(computingType)
      ensures old(computing).Some? ==> r == Err(ComputingAlreadyValid) && computing == old(computing)
      ensures old(computing).None? ==> (r.Ok? <==> computingType in BuildableComputing)
      ensures old(computing).None? && r.Ok? ==>
        r.value == this && computing == Some(ComputingSession(SessionIdFor(sessionId, "computing", givenId, uuid), computingType))
      ensures old(computing).None? && r.Err? ==>
        r.error == ComputingNotSupported(computingType) && computing.None?
    {
      var id := SessionIdFor(sessionId, "computing", givenId, uuid);
      if IsComputingValid() {
        return Err(ComputingAlreadyValid);
      }
      match ComputingDispatch(computingType, id)
      case Some(s) =>
        computing := Some(s);
        computingType := s.engine;
        return Ok(this);
      case None =>
        return Err(ComputingNotSupported(computingType));
    }

    /**
     * `_init_computing_if_not_valid`: builds the computing session when there
     * is none; otherwise reports whether the existing one has the queried id.
     */
    method InitComputingIfNotValid(givenId: string, uuid: string) returns (r: Result<bool>)
      requires Valid()
      modifies this`computing, this`computingType
      ensures Valid()
      ensures computingType == old(computingType)
      ensures old(computing).Some? ==> computing == old(computing) && r == Ok(old(computing).value.id == givenId)
      ensures old(computing).None? ==> (r.Ok? <==> computingType in BuildableComputing)
      ensures old(computing).None? && r.Ok? ==>
        r.value && computing == Some(ComputingSession(SessionIdFor(sessionId, "computing", givenId, uuid), computingType))
      ensures old(computing).None? && r.Err? ==>
        r.error == ComputingNotSupported(computingType) && computing.None?
    {
      if !IsComputingValid() {
        var init := InitComputing(givenId, uuid);
        if init.Err? {
          return Err(init.error);
        }
        return Ok(true);
      } else if computing.value.id != givenId {
        return Ok(false);
      } else {
        return Ok(true);
      }
    }

    /** The configured storage engine stands in for a missing request. */
    function ResolvedEngine(requested: Option<StorageEngine>): Option<StorageEngine> {
      if requested.None? then storageEngine else requested
    }

    /**
     * The loop of `_get_or_create_storage` over the registered sessions: a
     * session on engine `e` if there is one; None exactly when none serves it.
     */
    method FindByEngine(e: Option<StorageEngine>) returns (found: Option<StorageSession>)
      requires Valid()
      ensures found.Some? ==> found.value.id in storage && storage[found.value.id] == found.value
      ensures found.Some? ==> Some(found.value.engine) == e
      ensures found.None? <==> !Serves(storage, e)
    {
      var i := 0;
      while i < |order|
        invariant 0 <= i <= |order|
        invariant forall j :: 0 <= j < i ==> Some(storage[order[j]].engine) != e
      {
        var session := storage[order[i]];
        if Some(session.engine) == e {
          return Some(session);
        }
        i := i + 1;
      }
      return None;
    }

    /**
     * `_get_or_create_storage` (and its public name `storage`): the session
     * registered under the id, else a session on the resolved engine, else
     * the creation step as written.
     */
    method GetOrCreateStorage(givenId: string, engine: Option<StorageEngine>, record: bool, uuid: string)
      returns (r: Result<StorageSession>)
      requires Valid()
      modifies this`storage, this`order, this`ledger
      ensures Valid()
      // found by id: that exact session, nothing changes
      ensures var id := SessionIdFor(sessionId, "storage", givenId, uuid);
        id in old(storage) ==>
          r == Ok(old(storage)[id]) && storage == old(storage) && order == old(order) && ledger == old(ledger)
      // reused by engine: a registered session on the resolved engine, nothing changes
      ensures var id := SessionIdFor(sessionId, "storage", givenId, uuid);
        id !in old(storage) && Serves(old(storage), ResolvedEngine(engine)) ==>
          && r.Ok? && r.value.id in old(storage) && old(storage)[r.value.id] == r.value
          && Some(r.value.engine) == ResolvedEngine(engine)
          && storage == old(storage) && order == old(order) && ledger == old(ledger)
      // neither: the creation step decides the outcome, the record and the registry
      ensures var id := SessionIdFor(sessionId, "storage", givenId, uuid);
        var step := CreationAsWritten(ResolvedEngine(engine), id, record);
        id !in old(storage) && !Serves(old(storage), ResolvedEngine(engine)) ==>
          && r == step.outcome
          && ledger == (if step.saved then old(ledger) + {Record(sessionId, StorageName(ResolvedEngine(engine)), id)} else old(ledger))
          && (r.Ok? ==> storage == old(storage)[id := r.value] && order == old(order) + [id]
                        && storage.Keys == old(storage).Keys + {id})
          && (r.Err? ==> storage == old(storage) && order == old(order))
    {
      var id := SessionIdFor(sessionId, "storage", givenId, uuid);
      if id in storage {
        return Ok(storage[id]);
      }
      var e := ResolvedEngine(engine);
      var found := FindByEngine(e);
      if found.Some? {
        return Ok(found.value);
      }
      var step := CreationAsWritten(e, id, record);
      if step.saved {
        ledger := ledger + {Record(sessionId, StorageName(e), id)};
      }
      if step.outcome.Ok? {
        storage := storage[id := step.outcome.value];
        order := order + [id];
      }
      r := step.outcome;
    }

    /**
     * `get_table`: "not found" without an error when the metadata store has
     * no entry; otherwise the table from the storage session on the table's
     * engine, got or created with the default `record=True`.
     */
    method GetTable(name: string, namespace: string, metadata: map<TableKey, StorageEngine>, uuid: string)
      returns (r: Result<Option<TableHandle>>)
      requires Valid()
      modifies this`storage, this`order, this`ledger
      ensures Valid()
      ensures storage == old(storage) && order == old(order)
      ensures TableKey(name, namespace) !in metadata ==> r == Ok(None) && ledger == old(ledger)
      ensures r.Ok? && r.value.Some? ==>
        var h := r.value.value;
        && TableKey(name, namespace) in metadata
        && h.name == name && h.namespace == namespace
        && h.storageSessionId in storage && storage[h.storageSessionId].engine == h.engine
      ensures TableKey(name, namespace) in metadata && SessionIdFor(sessionId, "storage", "", uuid) !in storage ==>
        var e := metadata[TableKey(name, namespace)];
        && (Serves(storage, Some(e)) ==> r.Ok? && r.value.Some? && r.value.value.engine == e && ledger == old(ledger))
        && (!Serves(storage, Some(e)) ==>
              r == Err(UnboundStorageSession)
              && ledger == old(ledger) + {Record(sessionId, StorageName(Some(e)), SessionIdFor(sessionId, "storage", "", uuid))})
    {
      var key := TableKey(name, namespace);
      if key !in metadata {
        return Ok(None);
      }
      var session := GetOrCreateStorage("", Some(metadata[key]), true, uuid);
      if session.Err? {
        return Err(session.error);
      }
      var s := session.value;
      return Ok(Some(TableHandle(s.id, s.engine, name, namespace)));
    }

    /**
     * `destroy_storage_session`: a destroy attempt and a record deletion for
     * every registered session, whichever attempts fail; the registry itself
     * is left as it was.
     */
    method DestroyStorageSession(f: Faults)
      requires Valid()
      modifies this`ledger, this`trace
      ensures trace == old(trace) + StorageTeardown(order, f)
      ensures ledger == Purge(old(ledger), order)
    {
      var i := 0;
      while i < |order|
        invariant 0 <= i <= |order|
        invariant trace == old(trace) + StorageTeardown(order[..i], f)
        invariant ledger == PurgeEach(old(ledger), order[..i])
      {
        var id := order[i];
        assert order[..i + 1][..i] == order[..i] && order[..i + 1][i] == id;
        var destroyed := id !in f.destroyFails;
        trace := trace + [Destroy(id, destroyed)];
        ledger := Purge(ledger, [id]);
        trace := trace + [DeleteRecord(id)];
        assert ledger == PurgeEach(old(ledger), order[..i + 1]);
        assert trace == old(trace) + StorageTeardown(order[..i + 1], f);
        i := i + 1;
      }
      assert order[..i] == order;
      PurgeEachIsPurge(old(ledger), order);
    }

    /**
     * `destroy_computing_session`: nothing for an empty slot; otherwise stop,
     * kill only if stop failed, and delete the record whatever happened; the
     * slot itself is left as it was.
     */
    method DestroyComputingSession(f: Faults)
      requires Valid()
      modifies this`ledger, this`trace
      ensures trace == old(trace) + ComputingTeardown(computing, f)
      ensures ledger == Purge(old(ledger), SlotIds(computing))
    {
      if IsComputingValid() {
        var id := computing.value.id;
        var stopped := id !in f.stopFails;
        trace := trace + [Stop(id, stopped)];
        if !stopped {
          var killed := id !in f.killFails;
          trace := trace + [Kill(id, killed)];
        }
        ledger := Purge(ledger, [id]);
        trace := trace + [DeleteRecord(id)];
      } else {
        assert Purge(ledger, []) == ledger;
      }
    }

    /**
     * `get_session_from_record`: reopens the sessions recorded under this
     * manager session id, the computing one through
     * `_init_computing_if_not_valid` and each storage one through
     * `_get_or_create_storage` with `record=False`. A record that cannot be
     * reopened is skipped. Sessions already held are kept.
     */
    method ReplaySessionRecords(recorded: seq<Record>, uuid: string)
      requires Valid()
      modifies this`computing, this`computingType, this`storage, this`order, this`ledger
      ensures Valid()
      ensures computingType == old(computingType) && ledger == old(ledger)
      ensures old(computing).Some? ==> computing == old(computing)
      ensures Extends(storage, old(storage)) && old(order) <= order
      ensures forall k :: 0 <= k < |recorded| && recorded[k].managerId == sessionId ==> Reopened(recorded[k], uuid)
      ensures AddedOnlyFromRecords(old(storage), old(computing), recorded, |recorded|, uuid)
    {
      var i := 0;
      while i < |recorded|
        invariant 0 <= i <= |recorded|
        invariant Valid()
        invariant computingType == old(computingType) && ledger == old(ledger)
        invariant old(computing).Some? ==> computing == old(computing)
        invariant Extends(storage, old(storage)) && old(order) <= order
        invariant forall k :: 0 <= k < i && recorded[k].managerId == sessionId ==> Reopened(recorded[k], uuid)
        invariant AddedOnlyFromRecords(old(storage), old(computing), recorded, i, uuid)
      {
        var rec := recorded[i];
        ghost var before, orderBefore, computingBefore := storage, order, computing;
        if rec.managerId == sessionId {
          match rec.engine
          case ComputingName(_) =>
            // a failure, or a session with another id, is only logged
            var reopened := InitComputingIfNotValid(rec.engineSessionId, uuid);
            assert computingBefore.None? && computing.Some? ==>
              computing.value == ComputingSession(SessionIdFor(sessionId, "computing", recorded[i].engineSessionId, uuid), computingType);
          case StorageName(e) =>
            var reopened := GetOrCreateStorage(rec.engineSessionId, e, false, uuid);
            assert forall id :: id in storage && id !in before ==>
              id == SessionIdFor(sessionId, "storage", recorded[i].engineSessionId, uuid);
        }
        assert Extends(storage, before) && orderBefore <= order;
        assert computingBefore.Some? ==> computing == computingBefore;
        forall k | 0 <= k <= i && recorded[k].managerId == sessionId
          ensures Reopened(recorded[k], uuid)
        {
          if recorded[k].engine.StorageName? && k < i {
            var e := ResolvedEngine(recorded[k].engine.storage);
            StorageReopenedGrows(before, storage, SessionIdFor(sessionId, "storage", recorded[k].engineSessionId, uuid), e);
          }
        }
        i := i + 1;
      }
    }

    /**
     * `destroy_all_sessions`: replay the records, then tear down every
     * storage session, then the computing session, as they stand after the
     * replay. Nothing is raised, and the slot and the registry still hold
     * every session they held.
     */
    method DestroyAllSessions(f: Faults, recorded: seq<Record>, uuid: string)
      requires Valid()
      modifies this`computing, this`computingType, this`storage, this`order, this`ledger, this`trace
      ensures Valid()
      ensures computingType == old(computingType)
      ensures old(computing).Some? ==> computing == old(computing)
      ensures Extends(storage, old(storage)) && old(order) <= order
      ensures forall k :: 0 <= k < |recorded| && recorded[k].managerId == sessionId ==> Reopened(recorded[k], uuid)
      ensures AddedOnlyFromRecords(old(storage), old(computing), recorded, |recorded|, uuid)
      ensures trace == old(trace) + FullTeardown(order, computing, f)
      ensures ledger == Purge(old(ledger), order + SlotIds(computing))
    {
      trace := trace + [ReplayRecords];
      ReplaySessionRecords(recorded, uuid);
      DestroyStorageSession(f);
      DestroyComputingSession(f);
      assert Purge(Purge(old(ledger), order), SlotIds(computing)) == Purge(old(ledger), order + SlotIds(computing));
    }

    /**
     * `__exit__` (through `_close`): tears everything down and returns a
     * false value, so an exception raised in the `with` body propagates.
     */
    method Exit(f: Faults, recorded: seq<Record>, uuid: string) returns (suppress: bool)
      requires Valid()
      modifies this`computing, this`computingType, this`storage, this`order, this`ledger, this`trace
      ensures !suppress
      ensures Valid()
      ensures computingType == old(computingType)
      ensures old(computing).Some? ==> computing == old(computing)
      ensures Extends(storage, old(storage)) && old(order) <= order
      ensures forall k :: 0 <= k < |recorded| && recorded[k].managerId == sessionId ==> Reopened(recorded[k], uuid)
      ensures AddedOnlyFromRecords(old(storage), old(computing), recorded, |recorded|, uuid)
      ensures trace == old(trace) + FullTeardown(order, computing, f)
      ensures ledger == Purge(old(ledger), order + SlotIds(computing))
    {
      DestroyAllSessions(f, recorded, uuid);
      suppress := false;
    }
  }

  /**
   * `computing_session.init`: a new broker with a generated id becomes the
   * global session, then builds its computing session with the given id. The
   * global slot is set before the computing session is built, so it keeps the
   * new broker even when building fails.
   */
  method ComputingSessionInit(slot: GlobalSlot, config: EngineConfig, computingId: string,
                              managerUuid: string, computingUuid: string, ghost records: set<Record>)
    returns (r: Result<Session>)
    requires managerUuid != ""
    modifies slot
    ensures config.computing.None? ==> r == Err(MissingComputingEngine) && slot.current == old(slot.current)
    ensures config.computing.Some? ==>
      && slot.current != null && fresh(slot.current) && slot.current.sessionId == managerUuid
      && slot.current.storage == map[]
      && (r.Ok? <==> config.computing.value in BuildableComputing)
      && (r.Ok? ==> r.value == slot.current
                    && slot.current.computing == Some(ComputingSession(
                         SessionIdFor(managerUuid, "computing", computingId, computingUuid), config.computing.value)))
      && (r.Err? ==> r.error == ComputingNotSupported(config.computing.value) && slot.current.computing.None?)
  {
    var created := Session.Create(config, "", managerUuid, records);
    if created.Err? {
      return Err(created.error);
    }
    var s := created.value;
    var g := s.AsGlobal(slot);
    r := g.InitComputing(computingId, computingUuid);
  }
}
