# raftstarter key-value core, modelled in Dafny

raftstarter is a small replicated key-value store. A consensus engine (HashiCorp Raft)
orders write commands in a log. This project models the sequential logic around that
engine and proves properties of it:

- **State machine** (`store/fsm.go`, module `StateMachine`, file `fsm.dfy`). The class
  `Fsm` holds the map from string keys to JSON values. `Apply` dispatches a committed log
  entry on its `op`: `"set"` stores a value, `"delete"` removes a key, and anything else
  (or an entry that does not decode) halts the node before the map is touched. The halt
  is a panic in the source; here `Apply` returns the halt reason. `Snapshot` copies the
  map entry by entry. `Restore` replaces the map wholesale. The pure function `Step`
  specifies one application and `Replay` a sequence of them. The lemmas show that
  replaying from a snapshot point gives the full-log result, and that the final value
  of each key is the one written by the last command on that key.
- **Store coordinator** (`store/store.go`, module `Store`, file `store.dfy`). The class
  `Store` serves `Get` from the state machine's map. `Set` and `Delete` are gated on the
  node being leader. On the leader they hand exactly one command to the engine, and they
  never write the map. The engine is abstract: a `role` field, the sequence `submitted`
  of commands handed to it, and an `EngineReply` parameter standing for what the engine's
  apply future reports. `Open`'s configuration logic is modelled too: the `kvStore` switch
  and the `peers` parser (`id@addr,id@addr,...`). The parser is proved to be the inverse of
  formatting a server list, in both directions.
- **HTTP dispatch** (`httpd/httpd.go`, module `Httpd`, file `httpd.dfy`). Requests are
  routed on the `/key` path prefix and on the method. The key is the third `/`-separated
  path segment. Each request yields a response (status, JSON body) and the sequence of
  store calls it made. The store is an oracle saying how each call is answered. The
  source's quirks are kept:
  - A GET with an empty key records 400 but still performs the lookup and writes the
    body. Go's first-written header wins, so the status stays 400.
  - A successful DELETE calls the store's `Delete` a second time.
  - A POST batch stops at the first failing `Set`, and the earlier writes stay.
  - Any path that starts with `/key` (`/keys/x`, say) reaches the key handler.
- **Strings** (`strings.dfy`) models Go's `strings.Split`, `strings.Join` and
  `strings.HasPrefix` for a one-character separator. It proves the split/join round trip
  in both directions, which the peer parser and the key extraction rely on.
- **Json** (`json.dfy`) holds the tagged JSON value type (null, bool, number, string,
  array, object) and the outcome of a decode; **Wrappers** (`wrappers.dfy`) holds the
  `Option` and `Result` types.

## Model

| member | source | states |
|---|---|---|
| StateMachine.Lookup | store/store.go:126 | indexing the map yields the stored value, or nil (`JNull`) for an absent key |
| StateMachine.Step | store/fsm.go:20-34 | an entry applies iff it decodes and its op is "set" or "delete"; undecodable and unknown ops halt with the reason; set stores the value at its key, delete removes its key (absent key: map unchanged); no other key changes |
| StateMachine.Replay | store/fsm.go:20-34 | entries applied one by one in log order, stopping at the first that halts; replay runs to the end without halting iff every entry decodes with op "set" or "delete" |
| StateMachine.ReplayFromSnapshot | store/fsm.go:37-59 | replaying the rest of a log from the map reached after a non-halting prefix (what a snapshot there holds) equals replaying the whole log |
| StateMachine.ReplaySnoc | store/fsm.go:20-34 | replaying a log extended by one entry is replaying the log and then one `Step` |
| StateMachine.ReplayLastWriteWins | store/fsm.go:20-34 | replaying set/delete commands never halts, and each key ends with the value of the last command on it (absent after a delete, the initial value if untouched): equal logs on equal maps give equal maps |
| StateMachine.Fsm.constructor | store/store.go:32-36 | a new state machine's map is empty |
| StateMachine.Fsm.ApplySet | store/fsm.go:62-67 | the map becomes the old map with `key` bound to `value` |
| StateMachine.Fsm.ApplyDelete | store/fsm.go:69-74 | the map becomes the old map without `key`; unchanged when `key` was absent |
| StateMachine.Fsm.Apply | store/fsm.go:20-34 | when `Step` of the old map and the entry applies, no halt is reported and the map is the new one; when it halts, the reason is reported and the map is untouched |
| StateMachine.Fsm.Snapshot | store/fsm.go:37-47 | the copy built entry by entry equals the current map; the map is not modified |
| StateMachine.Fsm.Restore | store/fsm.go:50-60 | a decodable snapshot becomes the whole map, discarding earlier keys; an undecodable one yields an error and leaves the map alone |
| StateMachine.Fsm.ApplyLog | store/fsm.go:20-34 | applying entries in log order, stopping at a halt, leaves the map and halt reason that `Replay` gives |
| StateMachine.RestoreDiscardsLaterEntries | store/fsm.go:37-60 | snapshot, then any entries, then restore of that snapshot gives back the map as it was at snapshot time |
| Store.ReplyError | store/store.go:145-146 | a write reports no error exactly when the engine reports a commit |
| Store.SelectKvStore | store/store.go:48-71 | only "memory" and "boltdb" are accepted, any other `kvStore` is an error |
| Store.PeerEntry | store/store.go:101-108 | an entry is accepted iff it has exactly one `@`; the ID is the text before it and the address the text after, and `id@address` rebuilds the entry |
| Store.ParsePeers | store/store.go:98-109 | a peers string is accepted iff every comma-separated entry is; then there is one server per entry, in order, each parsed from its entry |
| Store.ParseFormattedPeers | store/store.go:98-108 | formatting a non-empty list of servers (IDs and addresses free of `,` and `@`) gives a non-empty string that parses back to the same list |
| Store.FormatParsedPeers | store/store.go:98-108 | any accepted peers string is exactly the formatted form of the servers parsed from it |
| Store.BootstrapServers | store/store.go:87-109 | empty peers give the local node alone; otherwise the loop filling servers by index, returning at the first bad entry, computes `ParsePeers` |
| Store.Store.constructor | store/store.go:32-36 | a new store has an empty map and has submitted nothing |
| Store.Store.Open | store/store.go:48-116 | an unknown `kvStore` fails first (the local address stands for the transport's resolved advertise address); then a malformed peers string fails; otherwise the cluster is bootstrapped with the local node (no peers) or the parsed peers; on failure nothing is bootstrapped |
| Store.Store.Get | store/store.go:123-127 | returns the map's value for the key, nil for an absent key, never an error, and changes nothing |
| Store.Store.Set | store/store.go:130-147 | a non-leader gets "not leader" and submits nothing; a leader submits exactly one set command with the key and value and reports the engine's reply; the coordinator's own code does not write the map |
| Store.Store.Delete | store/store.go:150-166 | a non-leader gets "not leader" and submits nothing; a leader submits exactly one delete command with the key and no value and reports the engine's reply; the coordinator's own code does not write the map |
| Store.SubmittedReplay | store/store.go:130-166 | whatever the coordinator submits replays without halting, and a read of any key afterwards returns the last write to it |
| Store.SetThenGet | store/store.go:123-147 | on any log, a leader's committed `Set`, once the engine has applied the command it submitted, is seen by `Get` |
| Strings.HasPrefix | httpd/httpd.go:78 | `strings.HasPrefix`: holds iff the string is the prefix followed by some text |
| Strings.Split | httpd/httpd.go:87 | `strings.Split`: one more piece than separators, none containing the separator |
| Strings.JoinSplit | store/store.go:98-101 | joining the pieces of a split gives back the string |
| Strings.SplitJoin | store/store.go:98-101 | splitting a join of separator-free pieces gives back the pieces |
| Httpd.WriteHeader | httpd/httpd.go:99-104 | after a call the header is written, and the first status written stays; a later one is ignored |
| Httpd.WriteBody | httpd/httpd.go:115 | writing the body records it and fixes the header at the status in force, so a 400 written earlier stays |
| Httpd.KeyOf | httpd/httpd.go:86-92 | the key never contains `/` and is empty unless the path has exactly two slashes |
| Httpd.KeyOfSegments | httpd/httpd.go:86-92 | a path with exactly two slashes is its first two segments and the key, joined by slashes |
| Httpd.KeyOfRequestPath | httpd/httpd.go:86-92 | `/seg/k` with slash-free `seg` and `k` yields key `k` |
| Httpd.FirstFailure | httpd/httpd.go:125-131 | the first failing pair of a batch: every pair before it is set successfully and the pair at it fails |
| Httpd.SetPairs | httpd/httpd.go:125-131 | the batch loop calls `Set` once per pair in order up to and including the first failure, and succeeds iff no pair fails; earlier sets are not undone |
| Httpd.HandleKeyRequest | httpd/httpd.go:85-150 | GET: one lookup (even with an empty key, then under 400) and body `{k: v}`; POST: 400 and no call on a bad body, else the batch loop with 500 on failure; DELETE: 400 and no call on an empty key, 500 after one failed call, else two calls; other methods 405 |
| Httpd.ServeHTTP | httpd/httpd.go:77-83 | a path not starting with `/key` gets 404 and no store call; any other path is handled as a key request |

## Left out

- The consensus engine itself (leader election, replication, the apply future and its ten-second timeout, `State()`) is an external library. It is replaced by the `role` field, the `submitted` command sequence and an `EngineReply` parameter. Role changes and the engine's delivery of committed entries are not modelled beyond `Fsm.ApplyLog`.
- Storage and transport setup in `Open` (state directory, BoltDB and file snapshot stores, TCP transport, address resolution, `raft.NewRaft`) is I/O. The errors it can return between the `kvStore` check and the peer parsing are not modelled. Neither is the engine instance that is already running when the peer parsing then fails.
- Store.Store.Set / Store.Store.Delete: in the source a committed write returns only after the engine has applied it to this node's map, so a `Get` right after a successful `Set` sees the new value. In the model that application is the separate step `Fsm.ApplyLog` (as in `SetThenGet`), so a `Get` straight after `Set`, without that step, still reads the old value.
- Calls to `Set` or `Delete` before `Open` (a nil engine in the source) are not modelled; a new store starts with the role `Follower`.
- `ObservationCh` and the role observer are channels and concurrency.
- The mutex in the state machine and the store only serialises access; the operations are modelled as sequential.
- `encoding/json` is not modelled. Decoding is an input (`Decoded` or `Undecodable`). Encoding a command and decoding it again is taken to give the same command. Encoding never fails for decoded JSON values, so the encoding-error returns of `Set` and `Delete` and GET's encoding-error 500 are not modelled. A snapshot that decodes to JSON `null` installs a nil Go map; in the source the next `applySet` then panics on the nil map, while in the model it is an empty map and the next set goes ahead (a snapshot taken by `Snapshot` is never nil, so only a foreign snapshot can do this).
- Keys and string values are sequences of Unicode characters. Go strings are byte sequences that need not be valid UTF-8, and `json.Marshal` replaces invalid bytes with U+FFFD; neither is modelled. So a path key with invalid UTF-8 (`DELETE /key/%FF`, say) is in the source not the key the resulting log command carries, while in the model the two are always the same.
- JSON numbers are mathematical reals; float64 rounding is not modelled.
- The persisted snapshot format (`fsmSnapshot` Persist and Release) is not part of this model.
- `Service.Start`, `Close`, `Addr`, logging, `kube/kube.go` and `main.go` are networking and process glue.
- Go's randomised map iteration order in the POST loop: the batch is an arbitrary given sequence of pairs.
- Httpd.HandleKeyRequest: the store oracle answers each call by its arguments alone, so a store whose answers change between calls of one request (a leader lost mid-batch) is only covered as far as a per-call answer can describe it.
