/**
 * Engine types and the two closed dispatch chains of the manager session:
 * which computing engines `init_computing` can build and which storage
 * engines `_get_or_create_storage` can build. The engine constructors
 * themselves live in modules this model does not include; a built session
 * is represented by its id and its engine.
 */
module Engines {
  import opened Optional

  /** Values of the computing-engine enum: the two the broker builds, and any other. */
  datatype ComputingEngine = Standalone | Spark | OtherComputing(name: string)

  /** Values of the storage-engine enum: the seven the broker builds, and any other. */
  datatype StorageEngine =
    | StandaloneStore
    | MySql
    | Hdfs
    | Hive
    | LinkisHive
    | Path
    | LocalFs
    | OtherStorage(name: string)

  /** A computing session handle; its execution context is opaque. */
  datatype ComputingSession = ComputingSession(id: string, engine: ComputingEngine)

  /** A storage session handle; its connection is opaque. */
  datatype StorageSession = StorageSession(id: string, engine: StorageEngine)

  /** The computing engines that have a branch in `init_computing`. */
  const BuildableComputing: set<ComputingEngine> := {Standalone, Spark}

  /** The storage engines that have a branch in the `elif` chain of `_get_or_create_storage`. */
  const BuildableStorage: set<StorageEngine> :=
    {StandaloneStore, MySql, Hdfs, Hive, LinkisHive, Path, LocalFs}

  /**
   * The computing dispatch: a session on engine `t` with id `id`, or None
   * ("not supported") for every engine without a branch.
   */
  function ComputingDispatch(t: ComputingEngine, id: string): (r: Option<ComputingSession>)
    ensures r.Some? <==> t in BuildableComputing
    ensures r.Some? ==> r.value.id == id && r.value.engine == t
  {
    match t
    case Standalone => Some(ComputingSession(id, Standalone))
    case Spark => Some(ComputingSession(id, Spark))
    case OtherComputing(_) => None
  }

  /**
   * The storage dispatch: a session on engine `e` with id `id`, or None
   * ("can not be initialized") when no engine is given or it has no branch.
   */
  function StorageDispatch(e: Option<StorageEngine>, id: string): (r: Option<StorageSession>)
    ensures r.Some? <==> e.Some? && e.value in BuildableStorage
    ensures r.Some? ==> r.value.id == id && r.value.engine == e.value
  {
    match e
    case Some(StandaloneStore) => Some(StorageSession(id, StandaloneStore))
    case Some(MySql) => Some(StorageSession(id, MySql))
    case Some(Hdfs) => Some(StorageSession(id, Hdfs))
    case Some(Hive) => Some(StorageSession(id, Hive))
    case Some(LinkisHive) => Some(StorageSession(id, LinkisHive))
    case Some(Path) => Some(StorageSession(id, Path))
    case Some(LocalFs) => Some(StorageSession(id, LocalFs))
    case Some(OtherStorage(_)) => None
    case None => None
  }
}
