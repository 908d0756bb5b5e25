/** The election key in Redis and the three Lua scripts of the locker.

    The key of one election is either absent or held by a value until a point of the store's
    clock.  A script reads and changes the key in one atomic step; the Go methods run a script
    and read the answer 1 as success. */
module RedisLock {

  /** A locker value; every candidate draws its own uuid, so the value identifies the candidate. */
  type Value = nat

  datatype Entry = Absent | Held(owner: Value, expiresAt: int)

  datatype Answer = Number(n: int) | Fault

  datatype Op = LockOp | ExtendOp | UnlockOp

  /** An expired key is gone for every command. */
  predicate Live(e: Entry, now: int) {
    e.Held? && now < e.expiresAt
  }

  predicate OwnedBy(e: Entry, now: int, v: Value) {
    Live(e, now) && e.owner == v
  }

  /** SET NX PX: a TTL that is not positive is a command error. */
  function LockScript(e: Entry, now: int, v: Value, ttl: int): (Entry, Answer) {
    if ttl <= 0 then (e, Fault)
    else if Live(e, now) then (e, Number(0))
    else (Held(v, now + ttl), Number(1))
  }

  function UnlockScript(e: Entry, now: int, v: Value): (Entry, Answer) {
    if OwnedBy(e, now, v) then (Absent, Number(1)) else (e, Number(0))
  }

  /** PEXPIRE with a TTL that is not positive deletes the key and still answers 1. */
  function ExtendScript(e: Entry, now: int, v: Value, ttl: int): (Entry, Answer) {
    if !OwnedBy(e, now, v) then (e, Number(0))
    else if ttl <= 0 then (Absent, Number(1))
    else (Held(v, now + ttl), Number(1))
  }

  function RunScript(op: Op, e: Entry, now: int, v: Value, ttl: int): (Entry, Answer) {
    match op
    case LockOp => LockScript(e, now, v, ttl)
    case ExtendOp => ExtendScript(e, now, v, ttl)
    case UnlockOp => UnlockScript(e, now, v)
  }

  /** No script changes the key while another value holds it, and none reports success. */
  lemma ForeignKeyUntouched(op: Op, e: Entry, now: int, v: Value, ttl: int)
    requires Live(e, now) && e.owner != v
    ensures RunScript(op, e, now, v, ttl).0 == e
    ensures RunScript(op, e, now, v, ttl).1 != Number(1)
  {
  }

  /** A script run for a value at a store time. */
  datatype Call = Call(op: Op, v: Value, ttl: int, at: int)

  function RunCalls(e: Entry, calls: seq<Call>): Entry {
    if calls == [] then e
    else
      var c := calls[|calls| - 1];
      RunScript(c.op, RunCalls(e, calls[..|calls| - 1]), c.at, c.v, c.ttl).0
  }

  ghost predicate InClockOrder(from: int, calls: seq<Call>, to: int) {
    && (forall i :: 0 <= i < |calls| ==> from <= calls[i].at <= to)
    && (forall i, j :: 0 <= i < j < |calls| ==> calls[i].at <= calls[j].at)
  }

  /** No release by `v` and no renewal by `v` for less than `ttl`. */
  ghost predicate Keeps(v: Value, ttl: int, calls: seq<Call>) {
    forall i :: 0 <= i < |calls| && calls[i].v == v ==> calls[i].op != UnlockOp && ttl <= calls[i].ttl
  }

  /** A granted Lock or Extend owns the key until its TTL has passed, whatever scripts run for
      other values in the meantime and whatever its own value locks or renews. */
  lemma {:induction false} GrantOwnsForTtl(op: Op, e: Entry, v: Value, ttl: int, at: int, calls: seq<Call>, now: int)
    requires op != UnlockOp && 0 < ttl && RunScript(op, e, at, v, ttl).1 == Number(1)
    requires at <= now < at + ttl && InClockOrder(at, calls, now) && Keeps(v, ttl, calls)
    ensures var f := RunCalls(RunScript(op, e, at, v, ttl).0, calls);
      f.Held? && f.owner == v && at + ttl <= f.expiresAt
    ensures OwnedBy(RunCalls(RunScript(op, e, at, v, ttl).0, calls), now, v)
    decreases |calls|
  {
    if calls == [] {
    } else {
      GrantOwnsForTtl(op, e, v, ttl, at, calls[..|calls| - 1], now);
    }
  }

  /** The key as the Go methods see it: each call runs one script. */
  class Locker {
    var entry: Entry

    constructor ()
      ensures entry == Absent
    {
      entry := Absent;
    }

    method Lock(now: int, value: Value, ttl: int) returns (ok: bool, failed: bool)
      modifies this
      ensures ok <==> 0 < ttl && old(!Live(entry, now))
      ensures entry == if ok then Held(value, now + ttl) else old(entry)
      ensures failed <==> ttl <= 0
    {
      var (after, answer) := RunScript(LockOp, entry, now, value, ttl);
      entry := after;
      ok, failed := answer == Number(1), answer.Fault?;
    }

    method Unlock(now: int, value: Value) returns (ok: bool)
      modifies this
      ensures ok <==> old(OwnedBy(entry, now, value))
      ensures entry == if ok then Absent else old(entry)
    {
      var (after, answer) := RunScript(UnlockOp, entry, now, value, 0);
      entry := after;
      ok := answer == Number(1);
    }

    method ExtendLockTTL(now: int, value: Value, ttl: int) returns (ok: bool)
      modifies this
      ensures ok <==> old(OwnedBy(entry, now, value))
      ensures ok ==> (OwnedBy(entry, now, value) <==> 0 < ttl)
      ensures ok && 0 < ttl ==> entry == Held(value, now + ttl)
      ensures !ok ==> entry == old(entry)
    {
      var (after, answer) := RunScript(ExtendOp, entry, now, value, ttl);
      entry := after;
      ok := answer == Number(1);
    }
  }
}
