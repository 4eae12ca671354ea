/**
 * The memoised vector store configuration (`vector_store/vector-store-config.ts`).
 * The module keeps one cached configuration; a call returns it when present and
 * otherwise reads and parses `vector_store/config.json`. Reading the file is
 * replaced by what the read turns out to be, one outcome per call.
 */
module VectorStoreConfig {
  import opened Wrappers
  import opened JsStrings

  /** The parsed object; a field the file lacks is `None`. */
  datatype Config = Config(vectorStoreId: Option<string>, name: Option<string>)

  /** What reading and parsing the file gives. */
  datatype FileRead =
    | Fails              // the file cannot be read or is not valid JSON
    | ParsesToNull       // the file holds the JSON value `null`
    | Parses(config: Config)

  /** One call: what it returns, what is cached afterwards, whether it read the file. */
  datatype Step = Step(result: Option<Config>, cache: Option<Config>, readsFile: bool)

  /** `getVectorStoreConfig` from the cache `cached`, when a read would give `read`. */
  function Lookup(cached: Option<Config>, read: FileRead): Step {
    if cached.Some? then Step(cached, cached, false)
    else
      match read
      case Fails => Step(None, cached, true)
      case ParsesToNull => Step(None, None, true)
      case Parses(c) => Step(Some(c), Some(c), true)
  }

  /** The results of successive calls, the `i`-th one seeing `outcomes[i]` if it reads the file. */
  function Run(cached: Option<Config>, outcomes: seq<FileRead>): (results: seq<Option<Config>>)
    ensures |results| == |outcomes|
    decreases |outcomes|
  {
    if outcomes == [] then []
    else
      var step := Lookup(cached, outcomes[0]);
      [step.result] + Run(step.cache, outcomes[1..])
  }

  /** How many of those calls read the file. */
  function FileReads(cached: Option<Config>, outcomes: seq<FileRead>): (n: nat)
    ensures n <= |outcomes|
    decreases |outcomes|
  {
    if outcomes == [] then 0
    else
      var step := Lookup(cached, outcomes[0]);
      (if step.readsFile then 1 else 0) + FileReads(step.cache, outcomes[1..])
  }

  /** Once something is cached, every call returns it and none reads the file. */
  lemma {:induction false} CachedIsSticky(c: Config, outcomes: seq<FileRead>)
    ensures forall i :: 0 <= i < |outcomes| ==> Run(Some(c), outcomes)[i] == Some(c)
    ensures FileReads(Some(c), outcomes) == 0
    decreases |outcomes|
  {
    if outcomes != [] {
      CachedIsSticky(c, outcomes[1..]);
    }
  }

  /** A read that fails or yields `null` caches nothing, so the call after it reads the file again. */
  lemma FailureIsRetried(read: FileRead, next: FileRead)
    requires !read.Parses?
    ensures Lookup(None, read) == Step(None, None, true)
    ensures Lookup(Lookup(None, read).cache, next).readsFile
  {
  }

  /**
   * From an empty cache, calls return nothing until the first read that parses
   * to an object, and that object from then on; the file is read by exactly the
   * calls up to and including that one.
   */
  lemma {:induction false} FirstParsedWins(outcomes: seq<FileRead>, k: nat)
    requires k < |outcomes| && outcomes[k].Parses?
    requires forall j :: 0 <= j < k ==> !outcomes[j].Parses?
    ensures forall i :: 0 <= i < k ==> Run(None, outcomes)[i] == None
    ensures forall i :: k <= i < |outcomes| ==> Run(None, outcomes)[i] == Some(outcomes[k].config)
    ensures FileReads(None, outcomes) == k + 1
    decreases k
  {
    if k == 0 {
      CachedIsSticky(outcomes[0].config, outcomes[1..]);
    } else {
      FirstParsedWins(outcomes[1..], k - 1);
    }
  }

  /** `config?.vector_store_id || null`. */
  function IdOf(config: Option<Config>): (id: Option<string>)
    ensures id.Some? <==> config.Some? && Truthy(config.value.vectorStoreId)
    ensures id.Some? ==> id == config.value.vectorStoreId && id.value != ""
  {
    if config.Some? && Truthy(config.value.vectorStoreId) then config.value.vectorStoreId else None
  }

  /** The module-level `cachedConfig` and the two exported functions. */
  class ConfigCache {
    var cached: Option<Config>

    /** The module is loaded with nothing cached. */
    constructor ()
      ensures cached == None
    {
      cached := None;
    }

    /** `getVectorStoreConfig`; `read` is what reading the file would give. */
    method GetVectorStoreConfig(read: FileRead) returns (config: Option<Config>, readsFile: bool)
      modifies this
      ensures Step(config, cached, readsFile) == Lookup(old(cached), read)
    {
      if cached.Some? {
        return cached, false;
      }
      readsFile := true;
      match read
      case Fails =>
        config := None;
      case ParsesToNull =>
        cached := None;
        config := cached;
      case Parses(c) =>
        cached := Some(c);
        config := cached;
    }

    /** `getVectorStoreId`: the cached or freshly read id, `None` when absent or empty. */
    method GetVectorStoreId(read: FileRead) returns (id: Option<string>)
      modifies this
      ensures id == IdOf(Lookup(old(cached), read).result)
      ensures cached == Lookup(old(cached), read).cache
    {
      var config, _ := GetVectorStoreConfig(read);
      id := IdOf(config);
    }
  }
}
