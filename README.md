# Peer node: identity, key/value store and request dispatcher

This project models the `Peernode` class of a minimal peer-to-peer file-sharing
node (`Peer_node.py`). A node is constructed from an ip and a port. It derives a
16-hex-digit node id from the SHA-256 digest of the string `"<ip> : <port>"` and
starts with an empty routing table and an empty key/value store (`data_store`).
Its dispatcher `process_request` takes an already-decoded request, a flat
string-keyed map, and reads its `command` field. It then does one of four things:

- `"ping"` answers `{"status": "alive"}`;
- `"store"` writes `data_store[key] = value`, replacing any previous value, and
  answers `{"status": "stored", "key": key}`;
- `"find"` raises a `TypeError`, because it calls the store dict as if it were a
  function;
- anything else, including a missing command, answers
  `{"error": "invalid command"}`.

Missing `key` and `value` fields are Python's `None`. They are modelled as
`Option<string>`, so a store under or with `None` stays representable.

Files:

- `wrappers.dfy`, module `Wrappers`: the `Option` datatype.
- `py_format.dfy`, module `PyFormat`: how Python renders an `int` in an
  f-string, a parser for it, and the proof that the rendering is injective.
- `peer_node.dfy`, module `PeerNode`:
  - the node id;
  - the request, response and store types;
  - `Step`, the pure specification of one `process_request` call;
  - lemmas about one call and about a sequence of calls;
  - the class `Peernode`, whose `ProcessRequest` method updates its
    `dataStore` field in place and is proved equal to `Step`.

SHA-256 is not modelled. It is a parameter of type
`string -> HexDigest`, where `HexDigest` is a string of 64 lowercase hex digits.
The UTF-8 encoding that comes before hashing is part of that parameter. So the
model proves only the following about the id: it is determined by the address,
it is 16 lowercase hex digits, and it is a prefix of the address's digest. It
also proves that two distinct addresses with int ports never give the same hashed string, so
two nodes share an id only through a SHA-256 prefix collision.

What the node does not do, as the code stands:

- `store` overwrites; it does not append to a per-key list of peers.
- `find` does not look the key up and does not forward a miss to known peers;
  it raises.
- Responses carry no `peers` field.
- `routing_table` is never read or written after construction.

`process_request` and `handle_peer` are indented inside `start_server`
(Peer_node.py:31-61). They come after its `while True` accept loop, which only an exception ends, so as written
they are local functions that can never be reached, not methods of the class.
The model still treats `process_request` as a method that acts on the node's
store, because that is clearly its role.

## Model

| member | source | states |
|---|---|---|
| PyFormat.NatToDecimal | Peer_node.py:17 | rendering a non-negative port gives a non-empty string of decimal digits with no leading zero |
| PyFormat.IntToDecimal | Peer_node.py:17 | rendering any int gives a non-empty string of digits, with a leading '-' exactly when the int is negative |
| PyFormat.NatToDecimalRoundTrip | Peer_node.py:17 | reading back the digits of a non-negative number gives that number |
| PyFormat.IntToDecimalRoundTrip | Peer_node.py:17 | parsing the f-string rendering of any int gives that int back |
| PyFormat.IntToDecimalInjective | Peer_node.py:17 | two ints with the same rendering are equal |
| PeerNode.AddressString | Peer_node.py:17 | the hashed string is the ip, then " : ", then the rendered port |
| PeerNode.AddressStringInjective | Peer_node.py:17 | two addresses that give the same hashed string have the same ip and the same port, even when the ip contains " : " |
| PeerNode.GenerateNodeId | Peer_node.py:15-18 | the node id is 16 lowercase hex digits and a prefix of the SHA-256 hex digest of the address string |
| PeerNode.NodeIdCollisionNeedsHashCollision | Peer_node.py:15-18 | two different addresses with the same node id hash two different strings to digests that share their first 16 digits |
| PeerNode.Get | Peer_node.py:47 | `request.get(name)` is present exactly when the field is in the request, and then it carries that field's value |
| PeerNode.Dispatch | Peer_node.py:47-61 | exactly one branch handles each command: ping, store and find by exact string equality; every other command, or none, goes to the invalid branch |
| PeerNode.AliveResponse | Peer_node.py:50 | the ping response has the single field status = "alive" |
| PeerNode.StoredResponse | Peer_node.py:55 | the store response has exactly the fields status = "stored" and key = the request's key, None included |
| PeerNode.InvalidResponse | Peer_node.py:61 | the fallback response has the single field error = "invalid command" |
| PeerNode.Step | Peer_node.py:45-61 | one call raises exactly when the command is "find"; only "store" changes the store; "store" maps its key to its value, adds at most that key and answers stored; every other entry keeps its value |
| PeerNode.PingAnswersAlive | Peer_node.py:49-50 | a ping returns exactly {"status": "alive"} and leaves the store unchanged |
| PeerNode.StoreOverwrites | Peer_node.py:52-55 | a store request replaces the key's entry with the value, returns {"status": "stored", "key": key} and grows the store by at most one entry |
| PeerNode.StoreIdempotent | Peer_node.py:54 | handling the same store request twice gives the same store and response as handling it once |
| PeerNode.InvalidCommandRejected | Peer_node.py:47-61 | a missing command or any command other than ping, store and find returns {"error": "invalid command"} and leaves the store unchanged |
| PeerNode.FindAlwaysRaises | Peer_node.py:57-59 | a find request never returns a response: it raises TypeError whatever the store holds, and the store is unchanged |
| PeerNode.FindRaisesOnStoredKey | Peer_node.py:59 | a find for a key that is in the store still raises |
| PeerNode.FindIntended | Peer_node.py:59 | the evidently intended lookup: {"value": stored value} when the key is stored, otherwise {"value": "notfound"} |
| PeerNode.FindIntendedAfterStore | Peer_node.py:52-59 | under the intended lookup, finding a key right after storing it answers the stored value |
| PeerNode.RunLastWriterWins | Peer_node.py:52-55 | after any sequence of requests, a key is present exactly when it was present before or was stored, and it holds the value of the last store for it, or its old value |
| PeerNode.RunWithoutStoreUnchanged | Peer_node.py:45-61 | a sequence of requests with no store request leaves the store exactly as it was |
| PeerNode.Peernode.constructor | Peer_node.py:8-13 | a new node keeps its ip and port, its id is GenerateNodeId of them, and its routing table and store are empty |
| PeerNode.Peernode.ProcessRequest | Peer_node.py:45-61 | the method's outcome and its new store are exactly Step of the old store and the request; nothing else changes |

## Left out

- `start_server` (Peer_node.py:20-29): socket bind, listen and the accept loop, which is meant to start one handler thread per connection. This is I/O and concurrency. As written, line 29 looks up `self.handle_peer`, which the class does not have, so it raises AttributeError on the first accepted connection: no handler thread ever starts and the loop ends there.
- `handle_peer` (Peer_node.py:31-43): the 1024-byte receive, JSON decoding and encoding, send and close. This is I/O. It is never reached. Even if it were, `self.process_request` (line 38) would raise AttributeError, and line 39 sends the undefined name `response`, so it could never send anything.
- JSON decoding: the model starts from an already-decoded flat object whose field values are strings. Fields with non-string JSON values are not represented. Neither are payloads that are not objects, which would make `request.get` fail.
- Concurrent calls of `process_request` from several threads are not modelled. `Run` covers only calls made one after another.
- SHA-256 and UTF-8 encoding (`hashlib`, `str.encode`): these are foreign library code. They are a parameter of the model, so no property of the hash is proved.
- The element type of `routing_table`: the source never puts anything in it. It is a `map<string, string>` that stays empty.
- Console printing (Peer_node.py:25, 41).
- PyFormat.IntToDecimal, PeerNode.GenerateNodeId: the port is modelled as an int. The f-string at Peer_node.py:17 accepts any object, and a str port is copied as it is. Then distinct addresses can give the same hashed string: ("a", "b : c") and ("a : b", "c") both give "a : b : c". So `AddressStringInjective` holds only for int ports.
- PyFormat.IntToDecimal, PeerNode.GenerateNodeId: Python's limit on int-to-str conversion (4300 digits) is not modelled. A port that long makes the f-string raise ValueError, so `__init__` raises, but the model still returns an id. Real ports are below 65536.

## Findings

| source | as written | input that shows it | evidently intended | confidence | as-written member | corrected member |
|---|---|---|---|---|---|---|
| Peer_node.py:59 | the find branch calls the store dict as a function, which raises TypeError, so a find never answers | store {"f1": "10.0.0.2:5000"}, request {"command": "find", "key": "f1"} | look the key up with default "notfound" and answer {"value": that} | high, not executed | PeerNode.FindRaisesOnStoredKey | PeerNode.FindIntended |

`PeerNode.Step` and `PeerNode.Peernode.ProcessRequest` keep the as-written
behaviour, because the store-and-dispatch model is meant to describe what the
node does. The corrected lookup is a separate function. It is not part of the
node, and `PeerNode.FindIntendedAfterStore` proves it gives back what was stored.
