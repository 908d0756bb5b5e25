/** Bitmap storages and the replicator that keeps snapshots of them.

    A bitmap is a set of 64-bit keys.  The serialisation of the bitmap library is a codec; what
    is proved about snapshots assumes that the codec round-trips. */
module Bitmap {
  import opened Basics
  import opened Runs

  type Uint64 = k: int | 0 <= k < 0x1_0000_0000_0000_0000

  datatype Codec = Codec(encode: set<Uint64> -> seq<Byte>, decode: seq<Byte> -> Option<set<Uint64>>)

  ghost predicate RoundTrips(c: Codec) {
    forall s :: c.decode(c.encode(s)) == Some(s) && c.encode(s) != []
  }

  function Members(keys: seq<Uint64>): set<Uint64> {
    set k | k in keys
  }

  // ---- any number of storages over one replicator --------------------------------------------

  /** A Replicate between its two locks: what it has read, and when. */
  datatype Snapshot = Snapshot(key: string, keys: set<Uint64>, taken: nat)

  /** A Recover after its first lock. */
  datatype Recovery = Recovery(id: nat, bytes: seq<Byte>, erased: bool)

  /** `writes` and `loads`: the calls under way, by number.  The rest is for the statements below:
      `clock` counts the reads and drops, `touched` says from which of them a key's state is. */
  datatype System = System(
    codec: Codec, storages: map<nat, set<Uint64>>, store: map<string, seq<Byte>>,
    writes: map<nat, Snapshot>, loads: map<nat, Recovery>, clock: nat, touched: map<string, nat>)

  /** Replicate is Read and Write, Recover is Fetch, Erase and Load: between them other calls may
      get in.  `partial`: what the reader has left in the bitmap if it fails. */
  datatype Action =
    | Upsert(id: nat, keys: seq<Uint64>)
    | Remove(id: nat, keys: seq<Uint64>)
    | Clear(id: nat)
    | Read(call: nat, id: nat, key: string, encodeFails: bool)
    | Write(call: nat)
    | Fetch(call: nat, id: nat, key: string)
    | Erase(call: nat)
    | Load(call: nat, partial: set<Uint64>)
    | Drop(key: string)

  /** A replication gets bytes unless the bitmap is empty or cannot be serialised. */
  predicate Reads(s: System, a: Action) {
    a.Read? && a.call !in s.writes && a.id in s.storages && !a.encodeFails && s.storages[a.id] != {}
  }

  predicate Writes(s: System, a: Action, key: string) {
    a.Write? && a.call in s.writes && s.writes[a.call].key == key
  }

  /** There is something under the key to recover from. */
  predicate Stored(s: System, key: string) {
    key in s.store && s.store[key] != []
  }

  predicate Fetches(s: System, a: Action) {
    a.Fetch? && a.call !in s.loads && a.id in s.storages && Stored(s, a.key)
  }

  function Step(s: System, a: Action): System {
    match a
    case Upsert(id, keys) =>
      if id in s.storages then s.(storages := s.storages[id := s.storages[id] + Members(keys)]) else s
    case Remove(id, keys) =>
      if id in s.storages then s.(storages := s.storages[id := s.storages[id] - Members(keys)]) else s
    case Clear(id) => if id in s.storages then s.(storages := s.storages[id := {}]) else s
    case Read(call, id, key, _) =>
      if Reads(s, a)
      then s.(writes := s.writes[call := Snapshot(key, s.storages[id], s.clock + 1)], clock := s.clock + 1)
      else s
    case Write(call) =>
      if call !in s.writes then s
      else
        var w := s.writes[call];
        s.(store := s.store[w.key := s.codec.encode(w.keys)], touched := s.touched[w.key := w.taken],
           writes := s.writes - {call})
    case Fetch(call, id, key) =>
      if Fetches(s, a) then s.(loads := s.loads[call := Recovery(id, s.store[key], false)]) else s
    case Erase(call) =>
      if call !in s.loads || s.loads[call].id !in s.storages then s
      else s.(storages := s.storages[s.loads[call].id := {}], loads := s.loads[call := s.loads[call].(erased := true)])
    case Load(call, partial) =>
      if call !in s.loads || !s.loads[call].erased || s.loads[call].id !in s.storages then s
      else
        s.(storages := s.storages[s.loads[call].id :=
             match s.codec.decode(s.loads[call].bytes) case Some(keys) => keys case None => partial],
           loads := s.loads - {call})
    case Drop(key) =>
      s.(store := s.store - {key}, touched := s.touched[key := s.clock + 1], clock := s.clock + 1)
  }

  /** Nothing stored and no call under way. */
  predicate Fresh(s: System) {
    s.store == map[] && s.writes == map[] && s.loads == map[] && s.touched == map[]
  }

  /** Read off the history: the snapshot that was written to `key` last, since the last Drop. */
  function LastSnapshot(s: System, acts: seq<Action>, key: string): Option<set<Uint64>> {
    if acts == [] then None
    else
      var front, a := acts[..|acts| - 1], acts[|acts| - 1];
      var t := After(Step, s, front);
      if Writes(t, a, key) then Some(t.writes[a.call].keys)
      else if a == Drop(key) then None
      else LastSnapshot(s, front, key)
  }

  /** What the storage calls do to their storage; the others stay. */
  lemma StorageSteps(s: System, id: nat, keys: seq<Uint64>)
    requires id in s.storages
    ensures forall k :: k in Step(s, Upsert(id, keys)).storages[id] <==> k in s.storages[id] || k in keys
    ensures forall k :: k in Step(s, Remove(id, keys)).storages[id] <==> k in s.storages[id] && k !in keys
    ensures Step(s, Clear(id)).storages[id] == {}
    ensures forall a, d :: (a == Upsert(id, keys) || a == Remove(id, keys) || a == Clear(id)) && d in s.storages && d != id ==>
              Step(s, a).storages[d] == s.storages[d]
  {
  }

  /** A replication of an empty storage, or of one that cannot be serialised, and a recovery from
      a key with nothing or no bytes under it, fail and change nothing. */
  lemma FailuresChangeNothing(s: System, call: nat, id: nat, key: string)
    ensures Step(s, Read(call, id, key, true)) == s
    ensures id in s.storages && s.storages[id] == {} ==> Step(s, Read(call, id, key, false)) == s
    ensures key !in s.store || s.store[key] == [] ==> Step(s, Fetch(call, id, key)) == s
  {
  }

  /** A recovery empties its storage before it fills it, which others can see, and leaves there
      what a failed read has left. */
  lemma RecoverSteps(s: System, call: nat, partial: set<Uint64>)
    requires call in s.loads && s.loads[call].id in s.storages
    ensures var id, t := s.loads[call].id, Step(s, Erase(call));
      t.storages == s.storages[id := {}] && t.loads[call] == Recovery(id, s.loads[call].bytes, true)
    ensures var id, t := s.loads[call].id, Step(s, Load(call, partial));
      && (!s.loads[call].erased ==> t == s)
      && (s.loads[call].erased ==> call !in t.loads)
      && (s.loads[call].erased && s.codec.decode(s.loads[call].bytes).None? ==> t.storages == s.storages[id := partial])
  {
  }

  lemma CodecStep(s: System, a: Action)
    ensures Step(s, a).codec == s.codec && Step(s, a).storages.Keys == s.storages.Keys
  {
  }

  /** What one step does to the bytes under a key. */
  lemma StoreStep(s: System, a: Action, key: string)
    ensures var t := Step(s, a);
      && (Writes(s, a, key) ==> key in t.store && t.store[key] == s.codec.encode(s.writes[a.call].keys))
      && (a == Drop(key) ==> key !in t.store)
      && (!Writes(s, a, key) && a != Drop(key) ==>
            (key in t.store <==> key in s.store) && (key in s.store ==> t.store[key] == s.store[key]))
  {
  }

  lemma CodecFixed(s: System, acts: seq<Action>)
    ensures After(Step, s, acts).codec == s.codec && After(Step, s, acts).storages.Keys == s.storages.Keys
  {
    forall t: System, a | t.codec == s.codec && t.storages.Keys == s.storages.Keys
      ensures Step(t, a).codec == s.codec && Step(t, a).storages.Keys == s.storages.Keys
    {
      CodecStep(t, a);
    }
    Invariance(Step, (t: System) => t.codec == s.codec && t.storages.Keys == s.storages.Keys, s, acts);
  }

  lemma SnapshotStep(s: System, a: Action, call: nat)
    requires call in s.writes && a != Write(call)
    ensures call in Step(s, a).writes && Step(s, a).writes[call] == s.writes[call]
  {
  }

  /** A call under way holds what it read. */
  lemma {:induction false} SnapshotWaits(s: System, acts: seq<Action>, call: nat)
    requires call in s.writes && Write(call) !in acts
    ensures var t := After(Step, s, acts); call in t.writes && t.writes[call] == s.writes[call]
    decreases |acts|
  {
    if acts == [] {
    } else {
      assert acts[|acts| - 1] in acts;
      SnapshotWaits(s, acts[..|acts| - 1], call);
      SnapshotStep(After(Step, s, acts[..|acts| - 1]), acts[|acts| - 1], call);
    }
  }

  predicate NoEmptySnapshot(s: System) {
    forall c :: c in s.writes ==> s.writes[c].keys != {}
  }

  lemma {:induction false} StoreIsLastSnapshot(s: System, acts: seq<Action>, key: string)
    requires Fresh(s)
    ensures var t := After(Step, s, acts);
      t.codec == s.codec && t.storages.Keys == s.storages.Keys && NoEmptySnapshot(t)
    ensures var t, snapshot := After(Step, s, acts), LastSnapshot(s, acts, key);
      && (key in t.store <==> snapshot.Some?)
      && (snapshot.Some? ==> snapshot.value != {} && t.store[key] == s.codec.encode(snapshot.value))
    decreases |acts|
  {
    if acts == [] {
    } else {
      StoreIsLastSnapshot(s, acts[..|acts| - 1], key);
      CodecStep(After(Step, s, acts[..|acts| - 1]), acts[|acts| - 1]);
      StoreStep(After(Step, s, acts[..|acts| - 1]), acts[|acts| - 1], key);
    }
  }

  // ---- recovery ------------------------------------------------------------------------------

  lemma RecoveryStep(s: System, a: Action, call: nat)
    requires call in s.loads && (a.Load? ==> a.call != call)
    ensures var t := Step(s, a);
      call in t.loads && t.loads[call].id == s.loads[call].id && t.loads[call].bytes == s.loads[call].bytes
  {
  }

  /** A Recover under way keeps its bytes. */
  lemma {:induction false} RecoveryWaits(s: System, acts: seq<Action>, call: nat)
    requires call in s.loads && forall a :: a in acts && a.Load? ==> a.call != call
    ensures var t := After(Step, s, acts);
      && call in t.loads && t.loads[call].id == s.loads[call].id && t.loads[call].bytes == s.loads[call].bytes
    decreases |acts|
  {
    if acts == [] {
    } else {
      assert acts[|acts| - 1] in acts;
      RecoveryWaits(s, acts[..|acts| - 1], call);
      RecoveryStep(After(Step, s, acts[..|acts| - 1]), acts[|acts| - 1], call);
    }
  }

  /** The last step of Recover reads back what its first found encoded. */
  lemma LoadStep(s: System, call: nat, keys: set<Uint64>, partial: set<Uint64>)
    requires RoundTrips(s.codec) && call in s.loads && s.loads[call].erased && s.loads[call].id in s.storages
    requires s.loads[call].bytes == s.codec.encode(keys)
    ensures var t := Step(s, Load(call, partial));
      t.storages == s.storages[s.loads[call].id := keys] && t.store == s.store
  {
    assert s.codec.decode(s.codec.encode(keys)) == Some(keys);
  }

  /** A Recover that has found `keys` encoded puts exactly them into its storage, whatever is done
      before its end - writes to that storage included, which are lost. */
  lemma RecoverEnds(s: System, call: nat, id: nat, key: string, keys: set<Uint64>, acts: seq<Action>,
                    partial: set<Uint64>)
    requires RoundTrips(s.codec) && id in s.storages && call !in s.loads
    requires key in s.store && s.store[key] == s.codec.encode(keys)
    requires forall a :: a in acts && a.Load? ==> a.call != call
    ensures var u := After(Step, Step(s, Fetch(call, id, key)), acts);
      call in u.loads && (u.loads[call].erased ==>
        var v := Step(u, Load(call, partial)); v.storages == u.storages[id := keys] && v.store == u.store)
  {
    var t := Step(s, Fetch(call, id, key));
    RecoveryWaits(t, acts, call);
    CodecFixed(t, acts);
    var u := After(Step, t, acts);
    if u.loads[call].erased {
      LoadStep(u, call, keys, partial);
    }
  }

  /** After any history, with any calls overlapping: Recover brings back exactly the snapshot that
      was last under the key when it looked, touching no other storage and no snapshot; with
      none under the key it fails and changes nothing. */
  lemma RecoverRestoresLastSnapshot(s: System, acts: seq<Action>, call: nat, id: nat, key: string,
                                    later: seq<Action>, partial: set<Uint64>)
    requires Fresh(s) && RoundTrips(s.codec) && id in s.storages
    requires call !in After(Step, s, acts).loads
    requires forall a :: a in later && a.Load? ==> a.call != call
    ensures var t, snapshot := After(Step, s, acts), LastSnapshot(s, acts, key);
      && (snapshot.None? ==> Step(t, Fetch(call, id, key)) == t)
      && (snapshot.Some? ==>
            var u := After(Step, Step(t, Fetch(call, id, key)), later);
            call in u.loads && (u.loads[call].erased ==>
              var v := Step(u, Load(call, partial));
              v.storages == u.storages[id := snapshot.value] && v.store == u.store))
  {
    StoreIsLastSnapshot(s, acts, key);
    var t, snapshot := After(Step, s, acts), LastSnapshot(s, acts, key);
    if snapshot.Some? {
      RecoverEnds(t, call, id, key, snapshot.value, later, partial);
    }
  }

  /** Nothing in the run drops the key or writes to it. */
  ghost predicate Spares(s: System, acts: seq<Action>, key: string) {
    forall i :: 0 <= i < |acts| ==> acts[i] != Drop(key) && !Writes(After(Step, s, acts[..i]), acts[i], key)
  }

  /** Then the snapshot stays: in particular no replication of an empty storage, or of one that
      cannot be serialised, overwrites it. */
  lemma {:induction false} SnapshotKept(s: System, acts: seq<Action>, key: string)
    requires Spares(s, acts, key)
    ensures var t := After(Step, s, acts);
      && (key in t.store <==> key in s.store) && (key in s.store ==> t.store[key] == s.store[key])
    decreases |acts|
  {
    if acts == [] {
    } else {
      var n := |acts| - 1;
      forall i | 0 <= i < n ensures acts[..n][..i] == acts[..i] {
      }
      assert Spares(s, acts[..n], key);
      SnapshotKept(s, acts[..n], key);
      StoreStep(After(Step, s, acts[..n]), acts[n], key);
    }
  }

  /** The first half of the round trip: what `call` read is what it writes, whatever is done to
      the storage and to the store in between. */
  lemma ReplicateWrites(s: System, call: nat, id: nat, key: string, between: seq<Action>)
    requires call !in s.writes && id in s.storages && s.storages[id] != {} && Write(call) !in between
    ensures var t := Step(After(Step, Step(s, Read(call, id, key, false)), between), Write(call));
      && t.codec == s.codec && t.storages.Keys == s.storages.Keys
      && key in t.store && t.store[key] == s.codec.encode(s.storages[id])
  {
    var r := Step(s, Read(call, id, key, false));
    SnapshotWaits(r, between, call);
    CodecFixed(r, between);
    CodecStep(After(Step, r, between), Write(call));
    StoreStep(After(Step, r, between), Write(call), key);
  }

  /** The round trip, with other calls between any of its steps: what Replicate reads from a
      storage is what a Recover that starts before the key is written or dropped again puts into
      any storage. */
  lemma ReplicateThenRecover(s: System, call: nat, id: nat, key: string, between: seq<Action>, spared: seq<Action>,
                             load: nat, target: nat, later: seq<Action>, partial: set<Uint64>)
    requires RoundTrips(s.codec) && target in s.storages
    requires call !in s.writes && id in s.storages && s.storages[id] != {}
    requires Write(call) !in between && forall a :: a in later && a.Load? ==> a.call != load
    requires var t := Step(After(Step, Step(s, Read(call, id, key, false)), between), Write(call));
      Spares(t, spared, key) && load !in After(Step, t, spared).loads
    ensures var t := Step(After(Step, Step(s, Read(call, id, key, false)), between), Write(call));
      var u := After(Step, Step(After(Step, t, spared), Fetch(load, target, key)), later);
      load in u.loads && (u.loads[load].erased ==>
        Step(u, Load(load, partial)).storages == u.storages[target := s.storages[id]])
  {
    var t := Step(After(Step, Step(s, Read(call, id, key, false)), between), Write(call));
    ReplicateWrites(s, call, id, key, between);
    SnapshotKept(t, spared, key);
    CodecFixed(t, spared);
    RecoverEnds(After(Step, t, spared), load, target, key, s.storages[id], later, partial);
  }

  // ---- overlapping replications --------------------------------------------------------------

  /** The call is about to write a snapshot older than the key's state: than the snapshot there,
      or than the Drop that removed it. */
  predicate WouldGoBack(s: System, call: nat, key: string) {
    && PendingOn(s, call, key)
    && key in s.touched && s.writes[call].taken < s.touched[key]
  }

  predicate PendingOn(s: System, call: nat, key: string) {
    call in s.writes && s.writes[call].key == key
  }

  ghost predicate Pending(s: System, key: string) {
    exists c :: PendingOn(s, c, key)
  }

  /** Two calls under way for the key, or one that has been overtaken. */
  ghost predicate Overlap(s: System, key: string) {
    || (exists c :: WouldGoBack(s, c, key))
    || (exists c, d :: c != d && PendingOn(s, c, key) && PendingOn(s, d, key))
  }

  /** No stamp is ahead of the clock, and no two calls have the same. */
  ghost predicate Stamped(s: System) {
    && (forall c :: c in s.writes ==> s.writes[c].taken <= s.clock)
    && (forall c, d :: c in s.writes && d in s.writes && c != d ==> s.writes[c].taken != s.writes[d].taken)
    && (forall key :: key in s.touched ==> s.touched[key] <= s.clock)
  }

  lemma StampedKept(s: System, a: Action)
    requires Stamped(s)
    ensures Stamped(Step(s, a))
  {
  }

  lemma StampedAlways(s: System, acts: seq<Action>)
    requires Stamped(s)
    ensures Stamped(After(Step, s, acts))
  {
    forall t, a | Stamped(t) ensures Stamped(Step(t, a)) {
      StampedKept(t, a);
    }
    Invariance(Step, Stamped, s, acts);
  }

  /** The step begins a replication to the key, or drops it. */
  predicate Begins(a: Action, key: string) {
    (a.Read? && a.key == key) || a == Drop(key)
  }

  /** No replication to the key begins, and no drop of it happens, while one is under way. */
  ghost predicate Serial(s: System, acts: seq<Action>, key: string) {
    forall i :: 0 <= i < |acts| && Begins(acts[i], key) ==> !Pending(After(Step, s, acts[..i]), key)
  }

  lemma SerialStep(s: System, a: Action, key: string)
    requires Stamped(s) && !Overlap(s, key) && (Begins(a, key) ==> !Pending(s, key))
    ensures !Overlap(Step(s, a), key)
    ensures key in s.touched ==> key in Step(s, a).touched && s.touched[key] <= Step(s, a).touched[key]
  {
    var t := Step(s, a);
    forall c | PendingOn(t, c, key) ensures !WouldGoBack(t, c, key) {
      assert !WouldGoBack(s, c, key);
      assert PendingOn(s, c, key) || (a.Read? && a.call == c);
      assert a.Write? && c != a.call ==> !PendingOn(s, a.call, key);
    }
    forall c, d | PendingOn(t, c, key) && PendingOn(t, d, key) ensures c == d {
      assert PendingOn(s, c, key) || (a.Read? && a.call == c);
      assert PendingOn(s, d, key) || (a.Read? && a.call == d);
    }
    if a.Write? {
      assert !WouldGoBack(s, a.call, key);
    }
  }

  /** Without overlap the key's state only ever gets newer. */
  lemma {:induction false} SerialGetsNewer(s: System, acts: seq<Action>, key: string)
    requires Stamped(s) && !Overlap(s, key) && Serial(s, acts, key)
    ensures var t := After(Step, s, acts);
      && !Overlap(t, key)
      && (key in s.touched ==> key in t.touched && s.touched[key] <= t.touched[key])
    decreases |acts|
  {
    if acts == [] {
    } else {
      var n := |acts| - 1;
      forall i | 0 <= i < n ensures acts[..n][..i] == acts[..i] {
      }
      SerialGetsNewer(s, acts[..n], key);
      StampedAlways(s, acts[..n]);
      SerialStep(After(Step, s, acts[..n]), acts[n], key);
    }
  }

  /** A run that leaves the call about to write something older. */
  ghost predicate GoesBack(s: System, acts: seq<Action>, call: nat, key: string) {
    Serial(s, acts, key) && WouldGoBack(After(Step, s, acts), call, key)
  }

  /** Exactly when an older snapshot can overwrite a newer one, or bring back a dropped key, even
      if from now on replications to the key wait for each other. */
  lemma GoesBackExactly(s: System, key: string)
    requires Stamped(s)
    ensures Overlap(s, key) <==> exists acts, call :: GoesBack(s, acts, call, key)
  {
    if c :| WouldGoBack(s, c, key) {
      assert GoesBack(s, [], c, key);
    } else if Overlap(s, key) {
      var c, d :| c != d && PendingOn(s, c, key) && PendingOn(s, d, key);
      if s.writes[c].taken < s.writes[d].taken {
        Overtaken(s, c, d, key);
      } else {
        Overtaken(s, d, c, key);
      }
    } else {
      forall acts, call | Serial(s, acts, key) ensures !GoesBack(s, acts, call, key) {
        SerialGetsNewer(s, acts, key);
      }
    }
  }

  /** The newer of two calls writes first. */
  lemma Overtaken(s: System, behind: nat, ahead: nat, key: string)
    requires PendingOn(s, behind, key) && PendingOn(s, ahead, key)
    requires s.writes[behind].taken < s.writes[ahead].taken
    ensures GoesBack(s, [Write(ahead)], behind, key)
  {
    TwoSteps(Step, s, Write(ahead), Write(ahead));
  }

  /** A Drop overtakes every call under way for its key: their writes bring the key back. */
  lemma DropOvertakes(s: System, call: nat, key: string)
    requires Stamped(s) && PendingOn(s, call, key)
    ensures WouldGoBack(Step(s, Drop(key)), call, key) && key !in Step(s, Drop(key)).store
    ensures key in Step(Step(s, Drop(key)), Write(call)).store
  {
  }

  /** The source lets that happen: two calls of Replicate may be under way for one key. */
  lemma CallsCanOverlap(s: System, id: nat, key: string)
    requires Fresh(s) && id in s.storages && s.storages[id] != {}
    ensures exists t :: Reaches(Step, s, t) && Overlap(t, key)
  {
    ReachesItself(Step, s);
    var t := ReachesNext(Step, s, s, Read(0, id, key, false));
    t := ReachesNext(Step, s, t, Read(1, id, key, false));
    assert PendingOn(t, 0, key) && PendingOn(t, 1, key);
  }

  // ---- the two types as they are written -----------------------------------------------------

  class Storage {
    const codec: Codec
    var bitmap: set<Uint64>

    constructor (codec: Codec)
      ensures this.codec == codec && bitmap == {}
    {
      this.codec := codec;
      bitmap := {};
    }

    method UpsertMany(keys: seq<Uint64>)
      modifies this
      ensures forall k :: k in bitmap <==> k in old(bitmap) || k in keys
    {
      bitmap := bitmap + Members(keys);
    }

    method RemoveMany(keys: seq<Uint64>)
      modifies this
      ensures forall k :: k in bitmap <==> k in old(bitmap) && k !in keys
    {
      for i := 0 to |keys|
        invariant forall k :: k in bitmap <==> k in old(bitmap) && k !in keys[..i]
      {
        bitmap := bitmap - {keys[i]};
      }
    }

    method ClearAll()
      modifies this
      ensures bitmap == {}
    {
      bitmap := {};
    }

    /** No bytes for an empty bitmap, which is not an error. */
    method GetBytesFromBitmap(encodeFails: bool) returns (bytes: Option<seq<Byte>>, failed: bool)
      ensures bytes.Some? <==> bitmap != {} && !encodeFails
      ensures bytes.Some? ==> bytes.value == codec.encode(bitmap)
      ensures failed <==> bitmap != {} && encodeFails
    {
      if bitmap == {} {
        return None, false;
      }
      if encodeFails {
        return None, true;
      }
      return Some(codec.encode(bitmap)), false;
    }

    /** A reader that fails leaves whatever it has read: `partial`. */
    method ReadFromBuffer(buffer: seq<Byte>, partial: set<Uint64>) returns (failed: bool)
      modifies this
      ensures failed <==> codec.decode(buffer).None?
      ensures bitmap == if failed then partial else codec.decode(buffer).value
    {
      match codec.decode(buffer) {
        case None =>
          bitmap := partial;
          return true;
        case Some(keys) =>
          bitmap := keys;
          return false;
      }
    }
  }

  class FakeReplicator {
    var store: map<string, seq<Byte>>

    constructor ()
      ensures store == map[]
    {
      store := map[];
    }

    method ReplicateTo(storage: Storage, key: string, encodeFails: bool) returns (failed: bool)
      modifies this
      ensures failed <==> storage.bitmap == {} || encodeFails
      ensures store == if failed then old(store) else old(store)[key := storage.codec.encode(storage.bitmap)]
    {
      var bytes, encodingFailed := storage.GetBytesFromBitmap(encodeFails);
      if encodingFailed {
        return true;
      }
      if bytes.None? {
        return true;
      }
      store := store[key := bytes.value];
      return false;
    }

    method RecoverFrom(storage: Storage, key: string, partial: set<Uint64>) returns (failed: bool)
      modifies storage
      ensures key !in store || store[key] == [] ==> failed && storage.bitmap == old(storage.bitmap)
      ensures key in store && store[key] != [] ==>
                && (failed <==> storage.codec.decode(store[key]).None?)
                && storage.bitmap == if failed then partial else storage.codec.decode(store[key]).value
    {
      if key !in store || store[key] == [] {
        return true;
      }
      var data := store[key];
      storage.ClearAll();
      failed := storage.ReadFromBuffer(data, partial);
    }

    method DropReplicationKey(key: string)
      modifies this
      ensures store == old(store) - {key}
    {
      store := store - {key};
    }
  }

  /** The classes keep the promise the machine makes: replicate, lose everything, recover. */
  method SnapshotSurvivesLoss(codec: Codec, keys: seq<Uint64>, lost: seq<Uint64>, key: string)
    returns (recovered: set<Uint64>, failed: bool)
    requires RoundTrips(codec)
    ensures failed <==> keys == []
    ensures !failed ==> recovered == Members(keys)
    ensures failed ==> recovered == Members(keys) - Members(lost)
  {
    var storage := new Storage(codec);
    var replicator := new FakeReplicator();
    storage.UpsertMany(keys);
    assert storage.bitmap == Members(keys);
    assert keys != [] ==> keys[0] in storage.bitmap;
    var notReplicated := replicator.ReplicateTo(storage, key, false);
    storage.RemoveMany(lost);
    assert storage.bitmap == Members(keys) - Members(lost);
    failed := replicator.RecoverFrom(storage, key, {});
    recovered := storage.bitmap;
  }
}
