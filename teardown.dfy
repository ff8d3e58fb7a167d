/**
 * Best-effort teardown of a manager session, as a trace of the calls it
 * makes into the engines and the session-record store, and the record
 * ledger those calls act on.
 *
 * Whether a `stop`, `kill` or `destroy` call fails is an input (`Faults`,
 * the ids of the engine sessions whose call raises). Every failure is
 * caught by the source, so it shows only in the `ok` flag of its event.
 */
module Teardown {
  import opened Optional
  import opened Engines

  /** Which engine sessions' calls raise. */
  datatype Faults = Faults(stopFails: set<string>, killFails: set<string>, destroyFails: set<string>)

  /** The engine named by a session record: a computing engine, or a (possibly absent) storage engine. */
  datatype EngineName = ComputingName(computing: ComputingEngine) | StorageName(storage: Option<StorageEngine>)

  /** One row of the session-record store. */
  datatype Record = Record(managerId: string, engine: EngineName, engineSessionId: string)

  /** One step of teardown, in the order the source performs it. */
  datatype Event =
    | ReplayRecords                   // marks where get_session_from_record runs (Session.ReplaySessionRecords)
    | Destroy(id: string, ok: bool)   // StorageSession.destroy()
    | Stop(id: string, ok: bool)      // ComputingSession.stop()
    | Kill(id: string, ok: bool)      // ComputingSession.kill()
    | DeleteRecord(id: string)        // delete_session_record(engine_session_id=id)

  datatype Kind = DestroyKind | StopKind | KillKind | DeleteKind

  predicate IsKind(e: Event, k: Kind) {
    match k
    case DestroyKind => e.Destroy?
    case StopKind => e.Stop?
    case KillKind => e.Kill?
    case DeleteKind => e.DeleteRecord?
  }

  /** The session id an event targets, if it is of kind `k`. */
  function Target(e: Event, k: Kind): seq<string> {
    if IsKind(e, k) then [e.id] else []
  }

  /** The session ids targeted by the events of kind `k`, in trace order. */
  function Targets(t: seq<Event>, k: Kind): seq<string> {
    if t == [] then [] else (if IsKind(t[0], k) then [t[0].id] else []) + Targets(t[1..], k)
  }

  /** Deleting every record of the engine sessions `ids`; an absent record is no error. */
  function Purge(ledger: set<Record>, ids: seq<string>): (r: set<Record>)
    ensures forall rec :: rec in r ==> rec in ledger && rec.engineSessionId !in ids
    ensures forall rec :: rec in ledger && rec.engineSessionId !in ids ==> rec in r
  {
    set rec | rec in ledger && rec.engineSessionId !in ids
  }

  /** Deleting the records of `ids` one session at a time, in order, as the teardown loop does. */
  function PurgeEach(ledger: set<Record>, ids: seq<string>): set<Record>
    decreases |ids|
  {
    if ids == [] then ledger else Purge(PurgeEach(ledger, ids[..|ids| - 1]), [ids[|ids| - 1]])
  }

  /** The id of the computing session in the slot, if any. */
  function SlotIds(c: Option<ComputingSession>): seq<string> {
    if c.Some? then [c.value.id] else []
  }

  /**
   * `destroy_storage_session`: for each storage session in insertion order,
   * one destroy attempt and then one record deletion, whatever the attempt did.
   */
  function StorageTeardown(ids: seq<string>, f: Faults): (t: seq<Event>)
    ensures |t| == 2 * |ids|
    ensures forall k :: 0 <= k < |ids| ==>
      t[2 * k] == Destroy(ids[k], ids[k] !in f.destroyFails) && t[2 * k + 1] == DeleteRecord(ids[k])
    decreases |ids|
  {
    if ids == [] then []
    else
      var n := |ids| - 1;
      var t' := StorageTeardown(ids[..n], f);
      assert forall k :: 0 <= k < n ==> ids[..n][k] == ids[k];
      t' + [Destroy(ids[n], ids[n] !in f.destroyFails), DeleteRecord(ids[n])]
  }

  /**
   * `destroy_computing_session`: nothing when the slot is empty; otherwise
   * stop, then kill only if stop raised, then the record deletion.
   */
  function ComputingTeardown(c: Option<ComputingSession>, f: Faults): (t: seq<Event>) {
    match c
    case None => []
    case Some(s) =>
      var stopped := s.id !in f.stopFails;
      [Stop(s.id, stopped)] + (if stopped then [] else [Kill(s.id, s.id !in f.killFails)]) + [DeleteRecord(s.id)]
  }

  /** `destroy_all_sessions`: replay the records, tear down storage, then computing. */
  function FullTeardown(order: seq<string>, c: Option<ComputingSession>, f: Faults): seq<Event> {
    [ReplayRecords] + StorageTeardown(order, f) + ComputingTeardown(c, f)
  }

  lemma {:induction false} TargetsAppend(a: seq<Event>, b: seq<Event>, k: Kind)
    ensures Targets(a + b, k) == Targets(a, k) + Targets(b, k)
    decreases |a|
  {
    if a == [] {
      assert a + b == b;
    } else {
      assert (a + b)[1..] == a[1..] + b;
      TargetsAppend(a[1..], b, k);
    }
  }

  lemma TargetsOfTwo(a: Event, b: Event, k: Kind)
    ensures Targets([a, b], k) == Target(a, k) + Target(b, k)
  {
    assert [a, b][1..] == [b];
    assert [b][1..] == [];
    assert Targets([b], k) == Target(b, k) + Targets([], k);
    assert Targets([a, b], k) == Target(a, k) + Targets([b], k);
  }

  lemma TargetsOfThree(a: Event, b: Event, c: Event, k: Kind)
    ensures Targets([a, b, c], k) == Target(a, k) + Target(b, k) + Target(c, k)
  {
    assert [a, b, c][1..] == [b, c];
    TargetsOfTwo(b, c, k);
  }

  /** The events the last session adds to storage teardown. */
  lemma StorageTeardownLast(ids: seq<string>, f: Faults, k: Kind)
    requires ids != []
    ensures var n := |ids| - 1;
      Targets(StorageTeardown(ids, f), k) == Targets(StorageTeardown(ids[..n], f), k)
        + Target(Destroy(ids[n], ids[n] !in f.destroyFails), k) + Target(DeleteRecord(ids[n]), k)
  {
    var n := |ids| - 1;
    var d, r := Destroy(ids[n], ids[n] !in f.destroyFails), DeleteRecord(ids[n]);
    assert StorageTeardown(ids, f) == StorageTeardown(ids[..n], f) + [d, r];
    TargetsAppend(StorageTeardown(ids[..n], f), [d, r], k);
    TargetsOfTwo(d, r, k);
  }

  /**
   * Storage teardown attempts to destroy every session and deletes every
   * record, each once and in insertion order, whichever destroys fail; it
   * never stops or kills anything.
   */
  lemma {:induction false} StorageTeardownTargets(ids: seq<string>, f: Faults)
    ensures Targets(StorageTeardown(ids, f), DestroyKind) == ids
    ensures Targets(StorageTeardown(ids, f), DeleteKind) == ids
    ensures Targets(StorageTeardown(ids, f), StopKind) == []
    ensures Targets(StorageTeardown(ids, f), KillKind) == []
    decreases |ids|
  {
    if ids != [] {
      var n := |ids| - 1;
      StorageTeardownTargets(ids[..n], f);
      StorageTeardownLast(ids, f, DestroyKind);
      StorageTeardownLast(ids, f, DeleteKind);
      StorageTeardownLast(ids, f, StopKind);
      StorageTeardownLast(ids, f, KillKind);
      assert ids == ids[..n] + [ids[n]];
    }
  }

  /**
   * Computing teardown: nothing for an empty slot; otherwise exactly one stop
   * attempt, a kill attempt exactly when the stop failed, and the record
   * deletion last, whatever the kill did.
   */
  lemma ComputingTeardownShape(c: Option<ComputingSession>, f: Faults)
    ensures c.None? ==> ComputingTeardown(c, f) == []
    ensures Targets(ComputingTeardown(c, f), StopKind) == SlotIds(c)
    ensures Targets(ComputingTeardown(c, f), KillKind) == (if c.Some? && c.value.id in f.stopFails then SlotIds(c) else [])
    ensures Targets(ComputingTeardown(c, f), DeleteKind) == SlotIds(c)
    ensures Targets(ComputingTeardown(c, f), DestroyKind) == []
    ensures c.Some? ==> ComputingTeardown(c, f)[0] == Stop(c.value.id, c.value.id !in f.stopFails)
    ensures c.Some? ==> ComputingTeardown(c, f)[|ComputingTeardown(c, f)| - 1] == DeleteRecord(c.value.id)
  {
    if c.Some? {
      var id := c.value.id;
      var t := ComputingTeardown(c, f);
      if id in f.stopFails {
        var stop, kill, del := Stop(id, false), Kill(id, id !in f.killFails), DeleteRecord(id);
        assert t == [stop, kill, del];
        TargetsOfThree(stop, kill, del, StopKind);
        TargetsOfThree(stop, kill, del, KillKind);
        TargetsOfThree(stop, kill, del, DeleteKind);
        TargetsOfThree(stop, kill, del, DestroyKind);
      } else {
        var stop, del := Stop(id, true), DeleteRecord(id);
        assert t == [stop, del];
        TargetsOfTwo(stop, del, StopKind);
        TargetsOfTwo(stop, del, KillKind);
        TargetsOfTwo(stop, del, DeleteKind);
        TargetsOfTwo(stop, del, DestroyKind);
      }
    }
  }

  /**
   * The whole teardown gives every owned storage session a destroy attempt
   * and every owned session a record deletion, and stops only the computing
   * session; the record replay comes first.
   */
  lemma TeardownCoversEverySession(order: seq<string>, c: Option<ComputingSession>, f: Faults)
    ensures FullTeardown(order, c, f)[0] == ReplayRecords
    ensures Targets(FullTeardown(order, c, f), DestroyKind) == order
    ensures Targets(FullTeardown(order, c, f), DeleteKind) == order + SlotIds(c)
    ensures Targets(FullTeardown(order, c, f), StopKind) == SlotIds(c)
  {
    var s := StorageTeardown(order, f);
    var ct := ComputingTeardown(c, f);
    StorageTeardownTargets(order, f);
    ComputingTeardownShape(c, f);
    forall k: Kind ensures Targets(FullTeardown(order, c, f), k) == Targets(s, k) + Targets(ct, k) {
      TargetsAppend([ReplayRecords], s, k);
      TargetsAppend([ReplayRecords] + s, ct, k);
    }
  }

  /** Storage is torn down before computing: every destroy precedes every stop and kill. */
  lemma TeardownStorageFirst(order: seq<string>, c: Option<ComputingSession>, f: Faults)
    ensures var t := FullTeardown(order, c, f);
      forall i, j :: 0 <= i < |t| && 0 <= j < |t| && t[i].Destroy? && (t[j].Stop? || t[j].Kill?) ==> i < j
  {
    var s := StorageTeardown(order, f);
    var ct := ComputingTeardown(c, f);
    var t := FullTeardown(order, c, f);
    assert forall m :: 0 <= m < |s| ==> s[m].Destroy? || s[m].DeleteRecord? by {
      forall m | 0 <= m < |s| ensures s[m].Destroy? || s[m].DeleteRecord? {
        var k := m / 2;
        assert m == 2 * k || m == 2 * k + 1;
        assert s[2 * k] == Destroy(order[k], order[k] !in f.destroyFails);
      }
    }
    assert forall m :: 0 <= m < |ct| ==> !ct[m].Destroy?;
  }

  /** A second purge of the same sessions removes nothing more: teardown can be repeated. */
  lemma PurgeIdempotent(ledger: set<Record>, ids: seq<string>)
    ensures Purge(Purge(ledger, ids), ids) == Purge(ledger, ids)
  {
  }

  lemma PurgeStep(ledger: set<Record>, ids: seq<string>, id: string)
    ensures Purge(Purge(ledger, ids), [id]) == Purge(ledger, ids + [id])
  {
  }

  /**
   * Deleting the records of the sessions one at a time leaves the ledger
   * that deleting them all at once leaves: every record of theirs gone,
   * every other record kept.
   */
  lemma {:induction false} PurgeEachIsPurge(ledger: set<Record>, ids: seq<string>)
    ensures PurgeEach(ledger, ids) == Purge(ledger, ids)
    decreases |ids|
  {
    if ids == [] {
      assert Purge(ledger, ids) == ledger;
    } else {
      var n := |ids| - 1;
      PurgeEachIsPurge(ledger, ids[..n]);
      PurgeStep(ledger, ids[..n], ids[n]);
      assert ids[..n] + [ids[n]] == ids;
    }
  }
}
