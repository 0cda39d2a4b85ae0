/**
 The replicated state machine (store/fsm.go): the key-value map that committed log
 entries are applied to, together with snapshot and restore for log compaction.
 */
module StateMachine {
  import opened Wrappers
  import opened Json

  type KvMap = map<string, JsonValue>

  /**
   A log command. `op` is kept as the string the log carries, so that an entry whose
   op is neither "set" nor "delete" can be represented; a delete carries no value, which
   decodes as `JNull`.
   */
  datatype Command = Command(op: string, key: string, value: JsonValue)

  const SetOp: string := "set"
  const DeleteOp: string := "delete"

  /** Why applying a log entry halts the node (a panic in the source). */
  datatype HaltReason = UndecodableEntry | UnrecognizedOp(op: string)

  /** What `Apply` does with one entry: a new map, or a halt that leaves the map alone. */
  datatype Transition = Applied(m: KvMap) | Halted(reason: HaltReason)

  /** The state a sequence of entries leads to, and the reason replay stopped early, if it did. */
  datatype Replayed = Replayed(m: KvMap, halt: Option<HaltReason>)

  /** A point-in-time copy of the map, as `Snapshot` hands it to the consensus engine. */
  datatype FsmSnapshot = FsmSnapshot(store: KvMap)

  datatype RestoreError = SnapshotUndecodable

  /** The value a Go map index yields: the stored value, or nil for an absent key. */
  function Lookup(m: KvMap, key: string): (v: JsonValue)
    ensures key !in m ==> v == JNull
    ensures key in m ==> v == m[key]
  {
    if key in m then m[key] else JNull
  }

  /** True when `a` and `b` agree on every key other than `key`. */
  ghost predicate SameExcept(a: KvMap, b: KvMap, key: string) {
    forall k :: k != key ==> (k in a <==> k in b) && (k in a ==> a[k] == b[k])
  }

  /**
   The effect of applying one log entry to map `m`: a "set" stores its value under its
   key, a "delete" removes its key, and an undecodable entry or any other op halts with
   the map as it was.
   */
  function Step(m: KvMap, entry: Decoding<Command>): (t: Transition)
    ensures t.Applied? <==> entry.Decoded? && entry.value.op in {SetOp, DeleteOp}
    ensures entry.Undecodable? ==> t == Halted(UndecodableEntry)
    ensures entry.Decoded? && entry.value.op !in {SetOp, DeleteOp} ==> t == Halted(UnrecognizedOp(entry.value.op))
    ensures t.Applied? ==> SameExcept(m, t.m, entry.value.key)
    ensures t.Applied? && entry.value.op == SetOp ==>
              entry.value.key in t.m && t.m[entry.value.key] == entry.value.value
    ensures t.Applied? && entry.value.op == DeleteOp ==> entry.value.key !in t.m
    ensures t.Applied? && entry.value.op == DeleteOp && entry.value.key !in m ==> t.m == m
  {
    match entry
    case Undecodable => Halted(UndecodableEntry)
    case Decoded(c) =>
      if c.op == SetOp then Applied(m[c.key := c.value])
      else if c.op == DeleteOp then Applied(m - {c.key})
      else Halted(UnrecognizedOp(c.op))
  }

  /** An entry `Apply` carries out rather than halting on. */
  predicate Applies(entry: Decoding<Command>) {
    entry.Decoded? && entry.value.op in {SetOp, DeleteOp}
  }

  /**
   Applying entries one after the other, in log order, from map `m`; the first entry
   that halts stops the replay with the map it found.
   */
  function Replay(m: KvMap, entries: seq<Decoding<Command>>): (r: Replayed)
    ensures r.halt == None <==> forall i :: 0 <= i < |entries| ==> Applies(entries[i])
    decreases |entries|
  {
    if entries == [] then Replayed(m, None)
    else
      match Step(m, entries[0])
      case Halted(r) => Replayed(m, Some(r))
      case Applied(m') => Replay(m', entries[1..])
  }

  /**
   Log compaction is sound: replaying a log from the state reached after a prefix of it
   (what a snapshot taken at that point holds) gives what replaying the whole log gives.
   */
  lemma {:induction false} ReplayFromSnapshot(m: KvMap, log: seq<Decoding<Command>>, i: nat)
    requires i <= |log|
    requires Replay(m, log[..i]).halt == None
    ensures Replay(Replay(m, log[..i]).m, log[i..]) == Replay(m, log)
    decreases i
  {
    if i > 0 {
      var t := Step(m, log[0]);
      assert log[..i][0] == log[0];
      assert t.Applied?;
      assert log[..i][1..] == log[1..][..i - 1];
      assert log[i..] == log[1..][i - 1..];
      ReplayFromSnapshot(t.m, log[1..], i - 1);
    } else {
      assert log[0..] == log;
    }
  }

  /** Replaying `prefix + [e]` is replaying the prefix, then taking one more step. */
  lemma ReplaySnoc(m: KvMap, prefix: seq<Decoding<Command>>, e: Decoding<Command>)
    requires Replay(m, prefix).halt == None
    ensures Replay(m, prefix + [e]) ==
              match Step(Replay(m, prefix).m, e)
              case Applied(m') => Replayed(m', None)
              case Halted(r) => Replayed(Replay(m, prefix).m, Some(r))
  {
    var log := prefix + [e];
    assert log[..|prefix|] == prefix;
    ReplayFromSnapshot(m, log, |prefix|);
    assert log[|prefix|..] == [e];
  }

  /** The log entry a command becomes once encoded and decoded again. */
  function Entries(cmds: seq<Command>): (entries: seq<Decoding<Command>>)
    ensures |entries| == |cmds|
    ensures forall i :: 0 <= i < |cmds| ==> entries[i] == Decoded(cmds[i])
  {
    seq(|cmds|, i requires 0 <= i < |cmds| => Decoded(cmds[i]))
  }

  /** Every command is a "set" or a "delete", as the coordinator builds them. */
  ghost predicate WellFormed(cmds: seq<Command>) {
    forall i :: 0 <= i < |cmds| ==> cmds[i].op in {SetOp, DeleteOp}
  }

  /**
   Reference definition of the value a key ends up with: decided by the last command
   on that key (its value for a set, absent for a delete), or the initial map when
   no command names the key.
   */
  ghost function LastWrite(m: KvMap, cmds: seq<Command>, key: string): Option<JsonValue>
    decreases |cmds|
  {
    if cmds == [] then (if key in m then Some(m[key]) else None)
    else
      var c := cmds[|cmds| - 1];
      if c.key == key then (if c.op == SetOp then Some(c.value) else None)
      else LastWrite(m, cmds[..|cmds| - 1], key)
  }

  /**
   Replay is deterministic in a strong sense: a log of well-formed commands never halts,
   and each key's final value is the one written by the last command on that key.
   */
  lemma {:induction false} ReplayLastWriteWins(m: KvMap, cmds: seq<Command>)
    requires WellFormed(cmds)
    ensures Replay(m, Entries(cmds)).halt == None
    ensures forall key ::
              (key in Replay(m, Entries(cmds)).m <==> LastWrite(m, cmds, key).Some?) &&
              (key in Replay(m, Entries(cmds)).m ==>
                 Replay(m, Entries(cmds)).m[key] == LastWrite(m, cmds, key).value)
    decreases |cmds|
  {
    if cmds != [] {
      var n := |cmds| - 1;
      var prefix := cmds[..n];
      var c := cmds[n];
      assert WellFormed(prefix) by {
        forall i | 0 <= i < |prefix| ensures prefix[i].op in {SetOp, DeleteOp} {
          assert prefix[i] == cmds[i];
        }
      }
      ReplayLastWriteWins(m, prefix);
      assert Entries(cmds) == Entries(prefix) + [Decoded(c)];
      ReplaySnoc(m, Entries(prefix), Decoded(c));
    }
  }

  /**
   The state machine (`fsm` in the source, which shares the store's map). Its methods
   are called by the consensus engine, one at a time.
   */
  class Fsm {
    var m: KvMap

    /** `store.New`: an empty map. */
    constructor ()
      ensures m == map[]
    {
      m := map[];
    }

    /** `applySet`: stores `value` under `key`, overwriting any previous value. */
    method ApplySet(key: string, value: JsonValue)
      modifies this
      ensures m == old(m)[key := value]
    {
      m := m[key := value];
    }

    /** `applyDelete`: removes `key`; an absent key leaves the map as it was. */
    method ApplyDelete(key: string)
      modifies this
      ensures m == old(m) - {key}
      ensures key !in old(m) ==> m == old(m)
    {
      m := m - {key};
    }

    /**
     `Apply`: dispatches a committed log entry on its op. An entry that does not decode,
     or whose op is neither "set" nor "delete", halts the node before the map is touched.
     */
    method Apply(entry: Decoding<Command>) returns (halt: Option<HaltReason>)
      modifies this
      ensures Step(old(m), entry).Applied? ==> halt == None && m == Step(old(m), entry).m
      ensures Step(old(m), entry).Halted? ==> halt == Some(Step(old(m), entry).reason) && m == old(m)
    {
      match entry {
        case Undecodable =>
          return Some(UndecodableEntry);
        case Decoded(c) =>
          if c.op == SetOp {
            ApplySet(c.key, c.value);
          } else if c.op == DeleteOp {
            ApplyDelete(c.key);
          } else {
            return Some(UnrecognizedOp(c.op));
          }
          return None;
      }
    }

    /**
     `Snapshot`: copies the map entry by entry into a fresh map. The copy equals the
     map at the time of the call, and the map itself is not changed.
     */
    method Snapshot() returns (snap: FsmSnapshot)
      ensures snap.store == m
    {
      var o: KvMap := map[];
      var pending := m.Keys;
      while pending != {}
        invariant pending <= m.Keys
        invariant o.Keys == m.Keys - pending
        invariant forall k :: k in o ==> o[k] == m[k]
        decreases pending
      {
        var k :| k in pending;
        o := o[k := m[k]];
        pending := pending - {k};
      }
      snap := FsmSnapshot(o);
    }

    /**
     `Restore`: on a snapshot that decodes, the map becomes exactly the decoded map and
     every earlier key is discarded; on one that does not, an error and no change.
     */
    method Restore(data: Decoding<KvMap>) returns (err: Option<RestoreError>)
      modifies this
      ensures data.Undecodable? ==> err == Some(SnapshotUndecodable) && m == old(m)
      ensures data.Decoded? ==> err == None && m == data.value
    {
      match data {
        case Undecodable =>
          return Some(SnapshotUndecodable);
        case Decoded(o) =>
          m := o;
          return None;
      }
    }

    /**
     The consensus engine delivering committed entries to `Apply` in log order; a halt
     ends the node, so no later entry is applied.
     */
    method ApplyLog(entries: seq<Decoding<Command>>) returns (halt: Option<HaltReason>)
      modifies this
      ensures Replayed(m, halt) == Replay(old(m), entries)
    {
      var i := 0;
      while i < |entries|
        invariant 0 <= i <= |entries|
        invariant Replay(m, entries[i..]) == Replay(old(m), entries)
      {
        assert entries[i..][1..] == entries[i + 1..];
        halt := Apply(entries[i]);
        if halt.Some? {
          return;
        }
        i := i + 1;
      }
      return None;
    }
  }

  /**
   A snapshot, then any entries, then a restore of that snapshot: the map is the one
   the snapshot was taken from, whatever the entries did in between.
   */
  method RestoreDiscardsLaterEntries(f: Fsm, entries: seq<Decoding<Command>>)
    modifies f
    ensures f.m == old(f.m)
  {
    var snap := f.Snapshot();
    var _ := f.ApplyLog(entries);
    var err := f.Restore(Decoded(snap.store));
  }
}
