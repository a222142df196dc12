/**
 * The peer node of Peer_node.py: its identity, its key/value store and the
 * request dispatcher `process_request`.
 *
 * A request is the already-decoded JSON object a peer sent, a flat map from
 * field name to string. A response is the dictionary `process_request`
 * returns; its values may be Python's None (the `key` echoed by a `store`
 * request that had no key). The store is Python's `data_store` dict, whose
 * keys and values are whatever `request.get` returned, None included.
 */
module PeerNode {
  import opened Wrappers
  import PyFormat

  // ---------------------------------------------------------------------------
  // Identity
  // ---------------------------------------------------------------------------

  predicate IsLowerHex(s: string) {
    forall i :: 0 <= i < |s| ==> s[i] in "0123456789abcdef"
  }

  /** What `hashlib.sha256(...).hexdigest()` returns: 64 lowercase hex digits. */
  type HexDigest = s: string | |s| == 64 && IsLowerHex(s)
    witness seq(64, _ => '0')

  /**
   * SHA-256 over the UTF-8 bytes of a string, rendered as a hex digest. The
   * hash itself is not modelled: every operation that needs it takes it as a
   * parameter, so nothing is assumed about it beyond its output format.
   */
  type Sha256 = string -> HexDigest

  /** The string `f"{ip} : {port}"` that the node id is hashed from. */
  function AddressString(ip: string, port: int): (s: string)
    ensures |s| == |ip| + 3 + |PyFormat.IntToDecimal(port)|
    ensures s[..|ip|] == ip && s[|ip|..|ip| + 3] == " : "
    ensures s[|ip| + 3..] == PyFormat.IntToDecimal(port)
  {
    ip + " : " + PyFormat.IntToDecimal(port)
  }

  /** `generate_node_id`: the first 16 hex digits of the address's digest. */
  function GenerateNodeId(sha256: Sha256, ip: string, port: int): (id: string)
    ensures |id| == 16 && IsLowerHex(id)
    ensures id <= sha256(AddressString(ip, port))
  {
    sha256(AddressString(ip, port))[..16]
  }

  /**
   * Two different addresses are never rendered as the same string, even when
   * the ip itself contains " : ": the port's digits hold no space, so the last
   * " : " of the string always separates ip from port.
   */
  lemma AddressStringInjective(ip1: string, port1: int, ip2: string, port2: int)
    requires AddressString(ip1, port1) == AddressString(ip2, port2)
    ensures ip1 == ip2 && port1 == port2
  {
    var s := AddressString(ip1, port1);
    var d1, d2 := PyFormat.IntToDecimal(port1), PyFormat.IntToDecimal(port2);
    // s[|ip|+2] is the space before the port, and no later character is a space
    assert s[|ip1| + 2] == ' ' && s[|ip2| + 2] == ' ';
    assert forall j :: |ip1| + 2 < j < |s| ==> s[j] == d1[j - |ip1| - 3] && s[j] != ' ';
    assert forall j :: |ip2| + 2 < j < |s| ==> s[j] == d2[j - |ip2| - 3] && s[j] != ' ';
    assert |ip1| == |ip2|;
    assert ip1 == s[..|ip1|] == ip2;
    assert d1 == s[|ip1| + 3..] == d2;
    PyFormat.IntToDecimalInjective(port1, port2);
  }

  /**
   * Two nodes at different addresses share an id only if SHA-256 maps two
   * different strings to digests with the same 16-digit prefix.
   */
  lemma NodeIdCollisionNeedsHashCollision(sha256: Sha256, ip1: string, port1: int, ip2: string, port2: int)
    requires (ip1, port1) != (ip2, port2)
    requires GenerateNodeId(sha256, ip1, port1) == GenerateNodeId(sha256, ip2, port2)
    ensures AddressString(ip1, port1) != AddressString(ip2, port2)
    ensures sha256(AddressString(ip1, port1))[..16] == sha256(AddressString(ip2, port2))[..16]
  {
    if AddressString(ip1, port1) == AddressString(ip2, port2) {
      AddressStringInjective(ip1, port1, ip2, port2);
    }
  }

  // ---------------------------------------------------------------------------
  // Requests, responses, store
  // ---------------------------------------------------------------------------

  /** A decoded request: a flat JSON object whose fields are strings. */
  type Request = map<string, string>

  /** A response dictionary; None stands for Python's None (JSON null). */
  type Response = map<string, Option<string>>

  /** `data_store`: dict keys and values are what `request.get` returned. */
  type Store = map<Option<string>, Option<string>>

  /** The exception `process_request` raises instead of returning. */
  datatype PyException = TypeError(message: string)

  /** What a call of `process_request` does: return a dict or raise. */
  datatype Outcome = Returned(response: Response) | Raised(exception: PyException)

  /** The outcome of one call together with the store it leaves behind. */
  datatype Transition = Transition(outcome: Outcome, store: Store)

  /** `request.get(name)`. */
  function Get(request: Request, name: string): (v: Option<string>)
    ensures v.Some? <==> name in request
    ensures v.Some? ==> v.value == request[name]
  {
    if name in request then Some(request[name]) else None
  }

  /** The branch of `process_request` that handles a request. */
  datatype Branch = PingBranch | StoreBranch | FindBranch | InvalidBranch

  /**
   * The if/elif chain on `command`: exact string equality, tested in the
   * order ping, store, find; anything else, a missing command included, falls
   * through to the invalid-command return.
   */
  function Dispatch(command: Option<string>): (b: Branch)
    ensures b == PingBranch <==> command == Some("ping")
    ensures b == StoreBranch <==> command == Some("store")
    ensures b == FindBranch <==> command == Some("find")
    ensures b == InvalidBranch <==> command !in {Some("ping"), Some("store"), Some("find")}
  {
    if command == Some("ping") then PingBranch
    else if command == Some("store") then StoreBranch
    else if command == Some("find") then FindBranch
    else InvalidBranch
  }

  function AliveResponse(): (r: Response)
    ensures r.Keys == {"status"} && r["status"] == Some("alive")
  {
    map["status" := Some("alive")]
  }

  function StoredResponse(key: Option<string>): (r: Response)
    ensures r.Keys == {"status", "key"} && r["status"] == Some("stored") && r["key"] == key
  {
    map["status" := Some("stored"), "key" := key]
  }

  function InvalidResponse(): (r: Response)
    ensures r.Keys == {"error"} && r["error"] == Some("invalid command")
  {
    map["error" := Some("invalid command")]
  }

  /** Calling a dict, as the find branch does, raises this. */
  const DictNotCallable: PyException := TypeError("'dict' object is not callable")

  /**
   * One call of `process_request` on a store: the response or exception, and
   * the store afterwards. Only the store branch changes the store, and it
   * changes at most the entry for the request's key.
   */
  function Step(store: Store, request: Request): (t: Transition)
    ensures t.outcome.Raised? <==> Get(request, "command") == Some("find")
    ensures Get(request, "command") != Some("store") ==> t.store == store
    ensures Get(request, "command") == Some("store") ==>
      t.store.Keys == store.Keys + {Get(request, "key")}
      && t.store[Get(request, "key")] == Get(request, "value")
      && t.outcome == Returned(StoredResponse(Get(request, "key")))
    ensures forall k :: k in store && k != Get(request, "key") ==> k in t.store && t.store[k] == store[k]
  {
    match Dispatch(Get(request, "command"))
    case PingBranch => Transition(Returned(AliveResponse()), store)
    case StoreBranch =>
      var key, value := Get(request, "key"), Get(request, "value");
      Transition(Returned(StoredResponse(key)), store[key := value])
    case FindBranch => Transition(Raised(DictNotCallable), store)
    case InvalidBranch => Transition(Returned(InvalidResponse()), store)
  }

  // ---------------------------------------------------------------------------
  // Properties of one call
  // ---------------------------------------------------------------------------

  /** A ping answers exactly {"status": "alive"} and leaves the store alone. */
  lemma PingAnswersAlive(store: Store, request: Request)
    requires Get(request, "command") == Some("ping")
    ensures Step(store, request) == Transition(Returned(map["status" := Some("alive")]), store)
  {
  }

  /**
   * A store request replaces whatever the key held, echoes the key and
   * touches no other entry.
   */
  lemma StoreOverwrites(store: Store, request: Request, key: Option<string>, value: Option<string>)
    requires Get(request, "command") == Some("store")
    requires Get(request, "key") == key && Get(request, "value") == value
    ensures Step(store, request).store == store[key := value]
    ensures Step(store, request).outcome == Returned(map["status" := Some("stored"), "key" := key])
    ensures |Step(store, request).store| <= |store| + 1
  {
  }

  /** Storing the same request twice leaves the store as storing it once. */
  lemma StoreIdempotent(store: Store, request: Request)
    requires Get(request, "command") == Some("store")
    ensures Step(Step(store, request).store, request) == Step(store, request)
  {
  }

  /**
   * A request with no command, or with a command other than ping, store and
   * find, gets {"error": "invalid command"} and leaves the store alone.
   */
  lemma InvalidCommandRejected(store: Store, request: Request)
    requires Get(request, "command") !in {Some("ping"), Some("store"), Some("find")}
    ensures Step(store, request) == Transition(Returned(map["error" := Some("invalid command")]), store)
  {
  }

  /**
   * A find request never returns a dict, whatever the store holds: it calls
   * the store dict as a function, which raises, and the store is unchanged.
   */
  lemma FindAlwaysRaises(store: Store, request: Request)
    requires Get(request, "command") == Some("find")
    ensures Step(store, request) == Transition(Raised(TypeError("'dict' object is not callable")), store)
  {
  }

  /** The counterexample: the key is stored, yet finding it raises. */
  lemma FindRaisesOnStoredKey()
    ensures var store: Store := map[Some("f1") := Some("10.0.0.2:5000")];
            Step(store, map["command" := "find", "key" := "f1"]).outcome.Raised?
  {
  }

  // ---------------------------------------------------------------------------
  // The lookup the find branch evidently meant
  // ---------------------------------------------------------------------------

  /**
   * The find branch as it was evidently meant: answer the key's value, or
   * "notfound" when the key is not stored. Peer_node.py does not do this.
   */
  function FindIntended(store: Store, key: Option<string>): (r: Response)
    ensures r.Keys == {"value"}
    ensures key in store ==> r["value"] == store[key]
    ensures key !in store ==> r["value"] == Some("notfound")
  {
    map["value" := if key in store then store[key] else Some("notfound")]
  }

  /** Under the intended lookup, finding a key answers the last value stored for it. */
  lemma FindIntendedAfterStore(store: Store, request: Request)
    requires Get(request, "command") == Some("store")
    ensures FindIntended(Step(store, request).store, Get(request, "key"))
            == map["value" := Get(request, "value")]
  {
  }

  // ---------------------------------------------------------------------------
  // Successive calls
  // ---------------------------------------------------------------------------

  /** The store after `process_request` has handled `requests` one after another. */
  function Run(store: Store, requests: seq<Request>): Store
    decreases |requests|
  {
    if requests == [] then store else Run(Step(store, requests[0]).store, requests[1..])
  }

  /**
   * The value the last store request for `key` in `requests` wrote, if any;
   * defined independently of `Step`.
   */
  function LastWrite(requests: seq<Request>, key: Option<string>): Option<Option<string>>
    decreases |requests|
  {
    if requests == [] then None
    else
      var later := LastWrite(requests[1..], key);
      if later.Some? then later
      else if Get(requests[0], "command") == Some("store") && Get(requests[0], "key") == key
      then Some(Get(requests[0], "value"))
      else None
  }

  /**
   * Last writer wins: after a sequence of requests a key holds the value of
   * the last store request for it, or its old value when no request stored
   * it. Nothing is ever appended and nothing is ever removed.
   */
  lemma {:induction false} RunLastWriterWins(store: Store, requests: seq<Request>, key: Option<string>)
    ensures key in Run(store, requests) <==> key in store || LastWrite(requests, key).Some?
    ensures key in Run(store, requests) ==>
      Run(store, requests)[key] == (if LastWrite(requests, key).Some? then LastWrite(requests, key).value else store[key])
    decreases |requests|
  {
    if requests != [] {
      RunLastWriterWins(Step(store, requests[0]).store, requests[1..], key);
    }
  }

  /** Requests that store nothing leave the store exactly as it was. */
  lemma {:induction false} RunWithoutStoreUnchanged(store: Store, requests: seq<Request>)
    requires forall i :: 0 <= i < |requests| ==> Get(requests[i], "command") != Some("store")
    ensures Run(store, requests) == store
    decreases |requests|
  {
    if requests != [] {
      RunWithoutStoreUnchanged(Step(store, requests[0]).store, requests[1..]);
    }
  }

  // ---------------------------------------------------------------------------
  // The node
  // ---------------------------------------------------------------------------

  class Peernode {
    const ip: string
    const port: int
    const nodeId: string
    /** Known peers; created empty and never read or written afterwards. */
    var routingTable: map<string, string>
    var dataStore: Store

    /** `__init__`: keeps the address, derives the id, starts with empty tables. */
    constructor (ip: string, port: int, sha256: Sha256)
      ensures this.ip == ip && this.port == port
      ensures nodeId == GenerateNodeId(sha256, ip, port)
      ensures routingTable == map[] && dataStore == map[]
    {
      this.ip := ip;
      this.port := port;
      nodeId := GenerateNodeId(sha256, ip, port);
      routingTable := map[];
      dataStore := map[];
    }

    /** `process_request`: dispatch on the command, updating the store on "store". */
    method ProcessRequest(request: Request) returns (outcome: Outcome)
      modifies this`dataStore
      ensures Transition(outcome, dataStore) == Step(old(dataStore), request)
    {
      match Dispatch(Get(request, "command"))
      case PingBranch =>
        outcome := Returned(AliveResponse());
      case StoreBranch =>
        var key, value := Get(request, "key"), Get(request, "value");
        dataStore := dataStore[key := value];
        outcome := Returned(StoredResponse(key));
      case FindBranch =>
        outcome := Raised(DictNotCallable);
      case InvalidBranch =>
        outcome := Returned(InvalidResponse());
    }
  }
}
