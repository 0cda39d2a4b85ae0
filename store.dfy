/**
 The store coordinator (store/store.go): local reads against the state machine's map,
 leader-gated writes submitted to the consensus engine as log commands, and the
 bootstrap configuration `Open` derives from its `kvStore` and `peers` arguments.
 */
module Store {
  import opened Wrappers
  import opened Json
  import opened Strings
  import opened StateMachine

  /** A node's role as the consensus engine reports it. */
  datatype Role = Follower | Candidate | Leader | Shutdown

  /** What the engine's apply future reports for a submitted command. */
  datatype EngineReply = Committed | TimedOut | Failed

  datatype StoreError = NotLeader | ConsensusTimeout | ConsensusFailed

  /** A member of the bootstrap configuration. */
  datatype Server = Server(id: string, address: string)

  /** Which log and stable store `Open` sets up. */
  datatype KvStoreKind = Memory | BoltDb

  datatype OpenError = UnknownKvStore | BadPeerFormat

  /** The error a write surfaces once the engine has answered. */
  function ReplyError(reply: EngineReply): (err: Option<StoreError>)
    ensures err == None <==> reply == Committed
  {
    match reply
    case Committed => None
    case TimedOut => Some(ConsensusTimeout)
    case Failed => Some(ConsensusFailed)
  }

  /** The `kvStore` switch of `Open`: only "memory" and "boltdb" are known. */
  function SelectKvStore(kvStore: string): (r: Result<KvStoreKind, OpenError>)
    ensures r.Ok? <==> kvStore in {"memory", "boltdb"}
    ensures r.Ok? ==> (r.value == Memory <==> kvStore == "memory")
    ensures r.Err? ==> r.error == UnknownKvStore
  {
    if kvStore == "memory" then Ok(Memory)
    else if kvStore == "boltdb" then Ok(BoltDb)
    else Err(UnknownKvStore)
  }

  /** One `id@addr` entry: exactly one `@`, the ID before it, the address after it. */
  function PeerEntry(entry: string): (r: Result<Server, OpenError>)
    ensures r.Ok? <==> Occurrences(entry, '@') == 1
    ensures r.Ok? ==> r.value.id + "@" + r.value.address == entry
    ensures r.Ok? ==> '@' !in r.value.id && '@' !in r.value.address
  {
    var parts := Split(entry, '@');
    if |parts| != 2 then Err(BadPeerFormat)
    else
      JoinSplit(entry, '@');
      assert Join(parts, '@') == parts[0] + ['@'] + parts[1];
      Ok(Server(parts[0], parts[1]))
  }

  /**
   The non-empty `peers` string of `Open`: comma-separated `id@addr` entries, one
   server per entry in order; any malformed entry rejects the whole string.
   */
  function ParsePeers(peers: string): (r: Result<seq<Server>, OpenError>)
    ensures r.Ok? <==> WellFormedPeers(Split(peers, ','))
    ensures r.Err? ==> r.error == BadPeerFormat
    ensures r.Ok? ==> |r.value| == |Split(peers, ',')|
    ensures r.Ok? ==> forall i :: 0 <= i < |r.value| ==> Ok(r.value[i]) == PeerEntry(Split(peers, ',')[i])
  {
    var entries := Split(peers, ',');
    if WellFormedPeers(entries) then
      Ok(seq(|entries|, i requires 0 <= i < |entries| => PeerEntry(entries[i]).value))
    else Err(BadPeerFormat)
  }

  /** Every entry is a well-formed `id@addr`. */
  predicate WellFormedPeers(entries: seq<string>) {
    forall i :: 0 <= i < |entries| ==> PeerEntry(entries[i]).Ok?
  }

  /** The `id@addr,id@addr,...` form of a server list (how the process builds `peers`). */
  function FormatPeers(servers: seq<Server>): string {
    Join(seq(|servers|, i requires 0 <= i < |servers| => servers[i].id + "@" + servers[i].address), ',')
  }

  /** A server whose ID and address can be written in the peer format. */
  predicate Formattable(s: Server) {
    ',' !in s.id && ',' !in s.address && '@' !in s.id && '@' !in s.address
  }

  /** Formatting a non-empty server list and parsing it gives the list back. */
  lemma ParseFormattedPeers(servers: seq<Server>)
    requires |servers| >= 1
    requires forall i :: 0 <= i < |servers| ==> Formattable(servers[i])
    ensures FormatPeers(servers) != ""
    ensures ParsePeers(FormatPeers(servers)) == Ok(servers)
  {
    var entries := seq(|servers|, i requires 0 <= i < |servers| => servers[i].id + "@" + servers[i].address);
    assert FormatPeers(servers) == Join(entries, ',');
    forall i | 0 <= i < |entries|
      ensures ',' !in entries[i]
      ensures PeerEntry(entries[i]) == Ok(servers[i])
    {
      var s := servers[i];
      assert entries[i] == s.id + ['@'] + s.address;
      assert Join([s.id, s.address], '@') == entries[i];
      SplitJoin([s.id, s.address], '@');
    }
    SplitJoin(entries, ',');
    assert Split(FormatPeers(servers), ',') == entries;
    assert ParsePeers(FormatPeers(servers)).Ok?;
    assert ParsePeers(FormatPeers(servers)).value == servers;
  }

  /** Whatever `ParsePeers` accepts is the formatted form of the servers it returns. */
  lemma FormatParsedPeers(peers: string)
    requires ParsePeers(peers).Ok?
    ensures FormatPeers(ParsePeers(peers).value) == peers
  {
    var servers := ParsePeers(peers).value;
    var entries := Split(peers, ',');
    var formatted := seq(|servers|, i requires 0 <= i < |servers| => servers[i].id + "@" + servers[i].address);
    assert formatted == entries by {
      forall i | 0 <= i < |servers| ensures formatted[i] == entries[i] {
        assert Ok(servers[i]) == PeerEntry(entries[i]);
      }
    }
    JoinSplit(peers, ',');
  }

  /**
   The bootstrap configuration built in `Open` (store/store.go, lines 87 to 109): with
   no peers, the local node alone; otherwise the peer list, filled in entry by entry
   and abandoned at the first malformed entry.
   */
  method BootstrapServers(localID: string, localAddr: string, peers: string)
    returns (r: Result<seq<Server>, OpenError>)
    ensures peers == "" ==> r == Ok([Server(localID, localAddr)])
    ensures peers != "" ==> r == ParsePeers(peers)
  {
    if peers == "" {
      return Ok([Server(localID, localAddr)]);
    }
    var individualPeers := Split(peers, ',');
    var peerServers := new Server[|individualPeers|];
    var i := 0;
    while i < |individualPeers|
      invariant 0 <= i <= |individualPeers|
      invariant forall j :: 0 <= j < i ==> PeerEntry(individualPeers[j]) == Ok(peerServers[j])
    {
      var parts := Split(individualPeers[i], '@');
      if |parts| != 2 {
        return Err(BadPeerFormat);
      }
      peerServers[i] := Server(parts[0], parts[1]);
      i := i + 1;
    }
    assert peerServers[..] == ParsePeers(peers).value;
    return Ok(peerServers[..]);
  }

  /**
   The coordinator. `fsm` is the state machine whose map reads are served from (in the
   source the two are one struct); `role` and `submitted` are the consensus engine's
   view: the node's current role, and every command handed to the engine's apply, in
   order. The engine, not this class, changes `role` and applies committed commands.
   */
  class Store {
    const fsm: Fsm
    var role: Role
    var submitted: seq<Command>
    var cluster: Option<seq<Server>>

    /** Every command submitted is a "set" or a "delete", so replaying them never halts. */
    ghost predicate Valid()
      reads this
    {
      WellFormed(submitted)
    }

    /** `New`: an empty map, nothing submitted, no cluster bootstrapped yet. */
    constructor ()
      ensures fresh(fsm) && fsm.m == map[]
      ensures role == Follower && submitted == [] && cluster == None
      ensures Valid()
    {
      fsm := new Fsm();
      role := Follower;
      submitted := [];
      cluster := None;
    }

    /**
     The configuration part of `Open`: the `kvStore` check comes first, then the peer
     list; only when both succeed is the cluster bootstrapped with the resulting servers.
     `advertiseAddr` stands for the transport's local address, the resolved form of the
     advertise address the source passes in.
     */
    method Open(nodeID: string, kvStore: string, advertiseAddr: string, peers: string)
      returns (err: Option<OpenError>)
      modifies this`cluster
      ensures SelectKvStore(kvStore).Err? ==> err == Some(UnknownKvStore) && cluster == old(cluster)
      ensures SelectKvStore(kvStore).Ok? && peers == "" ==>
                err == None && cluster == Some([Server(nodeID, advertiseAddr)])
      ensures SelectKvStore(kvStore).Ok? && peers != "" && ParsePeers(peers).Err? ==>
                err == Some(BadPeerFormat) && cluster == old(cluster)
      ensures SelectKvStore(kvStore).Ok? && peers != "" && ParsePeers(peers).Ok? ==>
                err == None && cluster == Some(ParsePeers(peers).value)
    {
      var kind := SelectKvStore(kvStore);
      if kind.Err? {
        return Some(kind.error);
      }
      var servers := BootstrapServers(nodeID, advertiseAddr, peers);
      if servers.Err? {
        return Some(servers.error);
      }
      cluster := Some(servers.value);
      return None;
    }

    /** `Get`: the map's value for `key` (nil, here `JNull`, when absent), never an error. */
    method Get(key: string) returns (v: JsonValue, err: Option<StoreError>)
      ensures err == None
      ensures key in fsm.m ==> v == fsm.m[key]
      ensures key !in fsm.m ==> v == JNull
    {
      v := Lookup(fsm.m, key);
      err := None;
    }

    /**
     `Set`: on a non-leader, a "not leader" error and nothing submitted; on the leader,
     exactly one "set" command with this key and value handed to the engine, whose
     reply decides the error. The map is never written here.
     */
    method Set(key: string, value: JsonValue, reply: EngineReply) returns (err: Option<StoreError>)
      requires Valid()
      modifies this`submitted
      ensures Valid()
      ensures role != Leader ==> err == Some(NotLeader) && submitted == old(submitted)
      ensures role == Leader ==>
                submitted == old(submitted) + [Command(SetOp, key, value)] && err == ReplyError(reply)
      ensures unchanged(fsm)
    {
      if role != Leader {
        return Some(NotLeader);
      }
      var c := Command(SetOp, key, value);
      submitted := submitted + [c];
      return ReplyError(reply);
    }

    /**
     `Delete`: like `Set`, with one "delete" command carrying the key and no value.
     Deleting an absent key is not an error here.
     */
    method Delete(key: string, reply: EngineReply) returns (err: Option<StoreError>)
      requires Valid()
      modifies this`submitted
      ensures Valid()
      ensures role != Leader ==> err == Some(NotLeader) && submitted == old(submitted)
      ensures role == Leader ==>
                submitted == old(submitted) + [Command(DeleteOp, key, JNull)] && err == ReplyError(reply)
      ensures unchanged(fsm)
    {
      if role != Leader {
        return Some(NotLeader);
      }
      var c := Command(DeleteOp, key, JNull);
      submitted := submitted + [c];
      return ReplyError(reply);
    }
  }

  /**
   What a node ends up with once the engine has applied everything the coordinator
   submitted: replay never halts, and each key holds what the last command on it wrote.
   */
  lemma SubmittedReplay(s: seq<Command>, m: KvMap, key: string)
    requires WellFormed(s)
    ensures Replay(m, Entries(s)).halt == None
    ensures Lookup(Replay(m, Entries(s)).m, key) ==
              match LastWrite(m, s, key) case Some(v) => v case None => JNull
  {
    ReplayLastWriteWins(m, s);
  }

  /**
   A leader's `Set` followed by the engine applying what was submitted: a read of the
   key then returns the value written.
   */
  method SetThenGet(s: Store, key: string, value: JsonValue) returns (v: JsonValue)
    requires s.Valid() && s.role == Leader
    modifies s, s.fsm
    ensures v == value
  {
    var n := |s.submitted|;
    var err := s.Set(key, value, Committed);
    assert err == None;
    var halt := s.fsm.ApplyLog(Entries(s.submitted[n..]));
    assert halt == None;
    v, err := s.Get(key);
  }
}
