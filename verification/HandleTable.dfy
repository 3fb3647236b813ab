/** The table of open shard handles (src/engine/manager.c) under any interleaving of threads. One step is what a
    thread does between two lock operations: mgr->lock guards chains and reference counts, a handle's own lock
    guards its connection, and a handle is freed outside both. */
module HandleTable {
  import opened Strings

  const BUCKETS := 512

  predicate Hex(c: char) { '0' <= c <= '9' || 'a' <= c <= 'f' }

  /** A lower-case hexadecimal digest. */
  type Key = k: string | |k| == 32 && forall i :: 0 <= i < |k| ==> Hex(k[i])
    witness seq(32, _ => '0')

  function Digit(c: char): (d: nat)
    requires Hex(c)
    ensures d < 16
  {
    if c <= '9' then c as int - '0' as int else c as int - 'a' as int + 10
  }

  function BucketFor(key: Key): (b: nat)
    ensures b < BUCKETS
  {
    (Digit(key[0]) * 16 + Digit(key[1])) % BUCKETS
  }

  type Id = nat
  type Tid = nat

  /** A handle. `owner` is bookkeeping of the proof that no step reads: the thread that alone may dispose of the
      handle (it has just opened it, or is freeing it) or that has unlinked it and waits for its lock. */
  datatype Handle = Handle(key: Key, refs: nat, retired: bool, freed: bool, lock: Option<Tid>, owner: Option<Tid>)

  datatype Pc =
    | Idle
    | Opening(key: Key, acquire: bool)    // looked up, not found; about to open the file
    | Inserting(h: Id, acquire: bool)     // opened, not yet in the table
    | Freeing(h: Id)                      // decided to free, outside mgr->lock
    | Using(h: Id)                        // holds the handle's lock
    | GcWait(h: Id) | GcHold(h: Id)       // unlinked; waiting for, then holding the handle's lock
    | InvWait(h: Id) | InvHold(h: Id)     // invalidate: waiting under mgr->lock, then holding the handle's lock
    | Scanning | Peeking(h: Id)           // maintain_partition: under mgr->lock, then also under a handle's lock

  datatype Thread = Thread(pc: Pc, held: multiset<Id>)

  datatype State = State(buckets: seq<seq<Id>>, handles: seq<Handle>, threads: seq<Thread>, mgr: Option<Tid>)

  // ---------------------------------------------------------------------------------------------
  // Steps

  predicate Linked(s: State, h: Id) {
    h < |s.handles| && |s.buckets| == BUCKETS && h in s.buckets[BucketFor(s.handles[h].key)]
  }

  /** find_locked: the first handle of the key's chain that carries the key. */
  function FindIn(chain: seq<Id>, handles: seq<Handle>, key: Key): (r: Option<Id>)
    requires forall i :: 0 <= i < |chain| ==> chain[i] < |handles|
    ensures r.Some? ==> r.value in chain && handles[r.value].key == key
    ensures r.None? ==> forall i :: 0 <= i < |chain| ==> handles[chain[i]].key != key
  {
    if chain == [] then None
    else if handles[chain[0]].key == key then Some(chain[0])
    else FindIn(chain[1..], handles, key)
  }

  predicate Shape(s: State) {
    && |s.buckets| == BUCKETS
    && (forall b, i :: 0 <= b < BUCKETS && 0 <= i < |s.buckets[b]| ==>
          s.buckets[b][i] < |s.handles| && BucketFor(s.handles[s.buckets[b][i]].key) == b)
  }

  function Find(s: State, key: Key): (r: Option<Id>)
    requires Shape(s)
    ensures r.Some? ==> Linked(s, r.value) && s.handles[r.value].key == key
    ensures r.None? ==> forall h: Id :: Linked(s, h) ==> s.handles[h].key != key
  {
    FindIn(s.buckets[BucketFor(key)], s.handles, key)
  }

  function Remove(chain: seq<Id>, h: Id): seq<Id> {
    if chain == [] then [] else if chain[0] == h then chain[1..] else [chain[0]] + Remove(chain[1..], h)
  }

  function SetThread(s: State, t: Tid, pc: Pc, held: multiset<Id>): State
    requires t < |s.threads|
  {
    s.(threads := s.threads[t := Thread(pc, held)])
  }

  function SetHandle(s: State, h: Id, x: Handle): State
    requires h < |s.handles|
  {
    s.(handles := s.handles[h := x])
  }

  /** refs++ and the thread remembers the handle. */
  function Take(s: State, t: Tid, h: Id, pc: Pc): State
    requires t < |s.threads| && h < |s.handles|
  {
    var x := s.handles[h];
    SetThread(SetHandle(s, h, x.(refs := x.refs + 1)), t, pc, s.threads[t].held + multiset{h})
  }

  function Link(s: State, h: Id): State
    requires Shape(s) && h < |s.handles|
  {
    var b := BucketFor(s.handles[h].key);
    s.(buckets := s.buckets[b := [h] + s.buckets[b]])
  }

  function Unlink(s: State, h: Id): State
    requires Shape(s) && h < |s.handles|
  {
    var b := BucketFor(s.handles[h].key);
    s.(buckets := s.buckets[b := Remove(s.buckets[b], h)])
  }

  datatype Step =
    | Acquire(t: Tid, key: Key)             // shard_for: look up
    | Load(t: Tid, key: Key)                // edb_engine_open: a file found at start
    | Open(t: Tid, opens: bool)             // edb_shard_open
    | Insert(t: Tid, allocates: bool)       // insert_shard
    | Use(t: Tid, h: Id) | EndUse(t: Tid)
    | Release(t: Tid, h: Id)                // shard_release, up to mgr->unlock
    | Free(t: Tid)                          // edb_shard_free
    | Gc(t: Tid, key: Key) | GcLock(t: Tid) | GcUnlock(t: Tid)
    | Invalidate(t: Tid, key: Key) | InvLock(t: Tid) | InvUnlock(t: Tid)
    | Sweep(t: Tid)                         // cleanup_all_shards: reference every linked handle
    | Scan(t: Tid) | Peek(t: Tid, h: Id) | EndPeek(t: Tid) | ScanTake(t: Tid, h: Id) | EndScan(t: Tid)

  predicate CanLock(s: State, h: Id) {
    h < |s.handles| && s.handles[h].lock.None?
  }

  predicate Enabled(s: State, e: Step) {
    && e.t < |s.threads|
    && var pc, held := s.threads[e.t].pc, s.threads[e.t].held;
       match e
       case Acquire(_, _) => pc.Idle? && s.mgr.None?
       case Load(_, _) => pc.Idle?
       case Open(_, _) => pc.Opening?
       case Insert(_, _) => pc.Inserting? && s.mgr.None?
       case Use(_, h) => pc.Idle? && h in held && CanLock(s, h)
       case EndUse(_) => pc.Using?
       case Release(_, h) => pc.Idle? && h in held && s.mgr.None?
       case Free(_) => pc.Freeing? && CanLock(s, pc.h)
       case Gc(_, _) => pc.Idle? && s.mgr.None?
       case GcLock(_) => pc.GcWait? && CanLock(s, pc.h)
       case GcUnlock(_) => pc.GcHold?
       case Invalidate(_, _) => pc.Idle? && s.mgr.None?
       case InvLock(_) => pc.InvWait? && CanLock(s, pc.h)
       case InvUnlock(_) => pc.InvHold?
       case Sweep(_) => pc.Idle? && s.mgr.None?
       case Scan(_) => pc.Idle? && s.mgr.None?
       case Peek(_, h) => pc.Scanning? && Linked(s, h) && CanLock(s, h)
       case EndPeek(_) => pc.Peeking?
       case ScanTake(_, h) => pc.Scanning? && Linked(s, h)
       case EndScan(_) => pc.Scanning?
  }

  function SetLock(s: State, h: Id, lock: Option<Tid>): State
    requires h < |s.handles|
  {
    SetHandle(s, h, s.handles[h].(lock := lock))
  }

  /** The handles a thread's program counter points at exist. */
  predicate PcInRange(s: State, pc: Pc) {
    (pc.Inserting? || pc.Freeing? || pc.Using? || pc.GcWait? || pc.GcHold? || pc.InvWait? || pc.InvHold? || pc.Peeking?)
    ==> pc.h < |s.handles|
  }

  predicate InRange(s: State) {
    && Shape(s)
    && (forall t :: 0 <= t < |s.threads| ==> PcInRange(s, s.threads[t].pc)
                                             && forall h :: h in s.threads[t].held ==> h < |s.handles|)
  }

  function DoAcquire(s: State, t: Tid, key: Key): State
    requires InRange(s) && t < |s.threads|
  {
    match Find(s, key)
    case Some(h) => Take(s, t, h, Idle)
    case None => SetThread(s, t, Opening(key, true), s.threads[t].held)
  }

  function DoInsert(s: State, t: Tid, allocates: bool): State
    requires InRange(s) && t < |s.threads| && s.threads[t].pc.Inserting?
  {
    var (h, acquire, held) := (s.threads[t].pc.h, s.threads[t].pc.acquire, s.threads[t].held);
    match Find(s, s.handles[h].key)
    case Some(existing) =>
      if acquire then Take(s, t, existing, Freeing(h)) else SetThread(s, t, Freeing(h), held)
    case None =>
      if !allocates then SetThread(s, t, Freeing(h), held)
      else
        var x := s.handles[h].(owner := None, refs := if acquire then 1 else 0);
        SetThread(SetHandle(Link(s, h), h, x), t, Idle, if acquire then held + multiset{h} else held)
  }

  function DoRelease(s: State, t: Tid, h: Id): State
    requires InRange(s) && t < |s.threads| && h in s.threads[t].held
  {
    var x := s.handles[h].(refs := if s.handles[h].refs > 0 then s.handles[h].refs - 1 else 0);
    var held := s.threads[t].held - multiset{h};
    if x.retired && x.refs == 0
    then SetThread(SetHandle(s, h, x.(owner := Some(t))), t, Freeing(h), held)
    else SetThread(SetHandle(s, h, x), t, Idle, held)
  }

  function DoGc(s: State, t: Tid, key: Key): State
    requires InRange(s) && t < |s.threads|
  {
    match Find(s, key)
    case None => s
    case Some(h) =>
      var x := s.handles[h];
      SetThread(SetHandle(Unlink(s, h), h, x.(retired := true, refs := x.refs + 1, owner := Some(t))),
                t, GcWait(h), s.threads[t].held + multiset{h})
  }

  function LinkedSet(s: State): set<Id> {
    set h | 0 <= h < |s.handles| && Linked(s, h)
  }

  function DoSweep(s: State, t: Tid): State
    requires t < |s.threads|
  {
    var bumped := seq(|s.handles|, h requires 0 <= h < |s.handles| =>
                        if Linked(s, h) then s.handles[h].(refs := s.handles[h].refs + 1) else s.handles[h]);
    SetThread(s.(handles := bumped), t, Idle, s.threads[t].held + multiset(LinkedSet(s)))
  }

  function Do(s: State, e: Step): State
    requires InRange(s) && Enabled(s, e)
  {
    var (t, pc, held) := (e.t, s.threads[e.t].pc, s.threads[e.t].held);
    match e
    case Acquire(_, key) => DoAcquire(s, t, key)
    case Load(_, key) => SetThread(s, t, Opening(key, false), held)
    case Open(_, opens) =>
      if !opens then SetThread(s, t, Idle, held)
      else SetThread(s.(handles := s.handles + [Handle(pc.key, 0, false, false, None, Some(t))]),
                     t, Inserting(|s.handles|, pc.acquire), held)
    case Insert(_, allocates) => DoInsert(s, t, allocates)
    case Use(_, h) => SetThread(SetLock(s, h, Some(t)), t, Using(h), held)
    case EndUse(_) => SetThread(SetLock(s, pc.h, None), t, Idle, held)
    case Release(_, h) => DoRelease(s, t, h)
    case Free(_) => SetThread(SetHandle(s, pc.h, s.handles[pc.h].(freed := true, owner := None)), t, Idle, held)
    case Gc(_, key) => DoGc(s, t, key)
    case GcLock(_) => SetThread(SetLock(s, pc.h, Some(t)), t, GcHold(pc.h), held)
    case GcUnlock(_) => SetThread(SetHandle(s, pc.h, s.handles[pc.h].(lock := None, owner := None)), t, Idle, held)
    case Invalidate(_, key) =>
      (match Find(s, key)
       case None => s
       case Some(h) => SetThread(s, t, InvWait(h), held).(mgr := Some(t)))
    case InvLock(_) => SetThread(SetLock(s, pc.h, Some(t)), t, InvHold(pc.h), held).(mgr := None)
    case InvUnlock(_) => SetThread(SetLock(s, pc.h, None), t, Idle, held)
    case Sweep(_) => DoSweep(s, t)
    case Scan(_) => SetThread(s, t, Scanning, held).(mgr := Some(t))
    case Peek(_, h) => SetThread(SetLock(s, h, Some(t)), t, Peeking(h), held)
    case EndPeek(_) => SetThread(SetLock(s, pc.h, None), t, Scanning, held)
    case ScanTake(_, h) => Take(s, t, h, Scanning)
    case EndScan(_) => SetThread(s, t, Idle, held).(mgr := None)
  }

  // ---------------------------------------------------------------------------------------------
  // The invariant

  /** How many references the threads hold on a handle. */
  function Holders(threads: seq<Thread>, h: Id): nat {
    if threads == [] then 0 else Holders(threads[..|threads| - 1], h) + threads[|threads| - 1].held[h]
  }

  predicate OwnsPc(pc: Pc, h: Id) {
    (pc.Inserting? || pc.Freeing? || pc.GcWait? || pc.GcHold?) && pc.h == h
  }

  predicate LocksPc(pc: Pc, h: Id) {
    (pc.Using? || pc.GcHold? || pc.InvHold? || pc.Peeking?) && pc.h == h
  }

  predicate MgrPc(pc: Pc) {
    pc.InvWait? || pc.Scanning? || pc.Peeking?
  }

  /** Chains hold at most one handle per key. */
  ghost predicate OnePerKey(s: State)
    requires Shape(s)
  {
    forall b, i, j :: 0 <= b < BUCKETS && 0 <= i < j < |s.buckets[b]|
                      ==> s.handles[s.buckets[b][i]].key != s.handles[s.buckets[b][j]].key
  }

  ghost predicate RefsCount(s: State) {
    forall h :: 0 <= h < |s.handles| ==> s.handles[h].refs == Holders(s.threads, h)
  }

  /** What is true of each handle. */
  ghost predicate HandleOk(s: State, h: Id)
    requires h < |s.handles|
  {
    var x := s.handles[h];
    && (Linked(s, h) ==> !x.retired && !x.freed)
    && (x.freed ==> x.refs == 0 && x.lock.None? && x.owner.None?)
    && (x.refs > 0 && !Linked(s, h) ==> x.retired)
    && (x.refs == 0 && !Linked(s, h) && !x.freed ==> x.owner.Some?)
    && (x.owner.Some? ==> x.owner.value < |s.threads| && OwnsPc(s.threads[x.owner.value].pc, h) && !Linked(s, h))
    && (x.lock.Some? ==> x.lock.value < |s.threads| && LocksPc(s.threads[x.lock.value].pc, h))
  }

  /** What is true of each thread. */
  ghost predicate ThreadOk(s: State, t: Tid)
    requires InRange(s) && t < |s.threads|
  {
    var (pc, held) := (s.threads[t].pc, s.threads[t].held);
    && (pc.Inserting? || pc.Freeing? || pc.GcWait? || pc.GcHold? ==> s.handles[pc.h].owner == Some(t))
    && (pc.Using? || pc.GcHold? || pc.InvHold? || pc.Peeking? ==> s.handles[pc.h].lock == Some(t))
    && (pc.Inserting? || pc.Freeing? ==> var x := s.handles[pc.h]; x.refs == 0 && !x.freed && x.lock.None?)
    && (pc.Inserting? ==> !s.handles[pc.h].retired)
    && (pc.Using? || pc.GcWait? || pc.GcHold? ==> pc.h in held)
    && (pc.InvWait? || pc.Peeking? ==> Linked(s, pc.h))
    && (pc.InvHold? ==> Linked(s, pc.h)
                        || (s.handles[pc.h].owner.Some? && s.handles[pc.h].owner.value < |s.threads|
                            && s.threads[s.handles[pc.h].owner.value].pc == GcWait(pc.h)))
    && (MgrPc(pc) <==> s.mgr == Some(t))
  }

  ghost predicate Inv(s: State) {
    && InRange(s)
    && OnePerKey(s)
    && RefsCount(s)
    && (forall h :: 0 <= h < |s.handles| ==> HandleOk(s, h))
    && (forall t :: 0 <= t < |s.threads| ==> ThreadOk(s, t))
    && (s.mgr.Some? ==> s.mgr.value < |s.threads|)
  }

  lemma {:induction false} HoldersUpdate(threads: seq<Thread>, t: Tid, x: Thread, h: Id)
    requires t < |threads|
    ensures Holders(threads[t := x], h) == Holders(threads, h) - threads[t].held[h] + x.held[h]
  {
    var last := |threads| - 1;
    if t == last {
      assert threads[t := x][..last] == threads[..last];
    } else {
      assert threads[t := x][..last] == threads[..last][t := x];
      HoldersUpdate(threads[..last], t, x, h);
    }
  }

  lemma {:induction false} HeldMeansReferenced(threads: seq<Thread>, t: Tid, h: Id)
    requires t < |threads|
    ensures Holders(threads, h) >= threads[t].held[h]
  {
    if t < |threads| - 1 {
      HeldMeansReferenced(threads[..|threads| - 1], t, h);
    }
  }

  // ---------------------------------------------------------------------------------------------
  // Every step keeps the invariant

  lemma Counts(s: State, t: Tid, x: Thread)
    requires t < |s.threads|
    ensures forall h :: Holders(s.threads[t := x], h) == Holders(s.threads, h) - s.threads[t].held[h] + x.held[h]
  {
    forall h ensures Holders(s.threads[t := x], h) == Holders(s.threads, h) - s.threads[t].held[h] + x.held[h] {
      HoldersUpdate(s.threads, t, x, h);
    }
  }

  predicate Mentions(pc: Pc, h: Id) {
    OwnsPc(pc, h) || LocksPc(pc, h) || pc == InvWait(h)
  }

  /** Thread t and handle h are all that a step changes. */
  ghost predicate OnlyChanges(s: State, s': State, t: Tid, h: Id) {
    && t < |s.threads| == |s'.threads| && |s.handles| == |s'.handles|
    && InRange(s) && InRange(s')
    && (forall u: Tid :: u < |s.threads| && u != t ==> s'.threads[u] == s.threads[u])
    && (forall k: Id :: k < |s.handles| && k != h ==> s'.handles[k] == s.handles[k] && Linked(s', k) == Linked(s, k))
    && (s'.mgr == s.mgr || (s.mgr.None? && s'.mgr == Some(t)) || (s.mgr == Some(t) && s'.mgr.None?))
  }

  /** What a step of t on h has to respect about the other handles and threads. */
  ghost predicate Respects(s: State, s': State, t: Tid, h: Id)
    requires OnlyChanges(s, s', t, h)
  {
    var pc, pc' := s.threads[t].pc, s'.threads[t].pc;
    && (forall k: Id :: k < |s.handles| && k != h ==>
          && OwnsPc(pc, k) == OwnsPc(pc', k) && LocksPc(pc, k) == LocksPc(pc', k)
          && (pc == GcWait(k) ==> pc' == pc) && s'.threads[t].held[k] == s.threads[t].held[k])
    && (h < |s.handles| ==> s'.handles[h].refs + s.threads[t].held[h] == s.handles[h].refs + s'.threads[t].held[h])
    && (forall u: Tid :: u < |s.threads| && u != t && Mentions(s.threads[u].pc, h) ==> ThreadOk(s', u))
  }

  lemma OthersKeepHandleOk(s: State, s': State, t: Tid, h: Id, k: Id)
    requires Inv(s) && OnlyChanges(s, s', t, h) && Respects(s, s', t, h)
    requires k < |s.handles| && k != h
    ensures HandleOk(s', k)
  {
    assert HandleOk(s, k);
  }

  lemma OthersKeepThreadOk(s: State, s': State, t: Tid, h: Id, u: Tid)
    requires Inv(s) && OnlyChanges(s, s', t, h) && Respects(s, s', t, h)
    requires u < |s.threads| && u != t
    ensures ThreadOk(s', u)
  {
    assert ThreadOk(s, u);
  }

  lemma OthersKeepRefs(s: State, s': State, t: Tid, h: Id)
    requires Inv(s) && OnlyChanges(s, s', t, h) && Respects(s, s', t, h)
    ensures RefsCount(s')
  {
    assert s'.threads == s.threads[t := s'.threads[t]];
    Counts(s, t, s'.threads[t]);
  }

  /** A step that leaves its own handle and thread in order, and respects the rest, keeps the invariant. */
  lemma LocalStepKeeps(s: State, s': State, t: Tid, h: Id)
    requires Inv(s) && OnlyChanges(s, s', t, h) && Respects(s, s', t, h)
    requires OnePerKey(s') && ThreadOk(s', t) && (h < |s.handles| ==> HandleOk(s', h))
    ensures Inv(s')
  {
    OthersKeepRefs(s, s', t, h);
    forall k: Id | k < |s.handles| ensures HandleOk(s', k) {
      if k != h { OthersKeepHandleOk(s, s', t, h, k); }
    }
    forall u: Tid | u < |s.threads| ensures ThreadOk(s', u) {
      if u != t { OthersKeepThreadOk(s, s', t, h, u); }
    }
  }

  /** The facts about the acting thread and the handle it acts on. */
  lemma Facts(s: State, t: Tid, h: Id)
    requires Inv(s) && t < |s.threads|
    ensures InRange(s) && OnePerKey(s) && ThreadOk(s, t)
    ensures PcInRange(s, s.threads[t].pc) && forall k :: k in s.threads[t].held ==> k < |s.handles|
    ensures h < |s.handles| ==> HandleOk(s, h) && s.handles[h].refs >= s.threads[t].held[h]
    ensures forall u: Tid {:trigger s.threads[u]} :: u < |s.threads| && Mentions(s.threads[u].pc, h) ==> ThreadOk(s, u)
  {
    HeldMeansReferenced(s.threads, t, h);
  }

  /** A step on one handle that touches no chain. */
  function Put(s: State, t: Tid, h: Id, x: Handle, pc: Pc, held: multiset<Id>, mgr: Option<Tid>): State
    requires t < |s.threads| && h < |s.handles|
  {
    SetThread(SetHandle(s, h, x), t, pc, held).(mgr := mgr)
  }

  lemma PutKeepsChains(s: State, t: Tid, h: Id, x: Handle, pc: Pc, held: multiset<Id>, mgr: Option<Tid>)
    requires InRange(s) && OnePerKey(s) && t < |s.threads| && h < |s.handles|
    requires x.key == s.handles[h].key && PcInRange(s, pc) && (forall k :: k in held ==> k < |s.handles|)
    requires mgr == s.mgr || (s.mgr.None? && mgr == Some(t)) || (s.mgr == Some(t) && mgr.None?)
    ensures var s' := Put(s, t, h, x, pc, held, mgr);
            OnlyChanges(s, s', t, h) && OnePerKey(s') && forall k: Id :: Linked(s', k) == Linked(s, k)
  {
  }

  lemma TakeKeeps(s: State, t: Tid, h: Id, pc: Pc)
    requires Inv(s) && t < |s.threads| && Linked(s, h)
    requires (s.threads[t].pc.Idle? && pc.Idle?) || (s.threads[t].pc.Scanning? && pc.Scanning?)
    ensures Inv(Take(s, t, h, pc))
  {
    hide Inv, InRange, Shape, OnePerKey;
    Facts(s, t, h);
    var x := s.handles[h];
    PutKeepsChains(s, t, h, x.(refs := x.refs + 1), pc, s.threads[t].held + multiset{h}, s.mgr);
    TakeLeavesInOrder(s, t, h, pc);
    TakeRespects(s, t, h, pc);
    hide ThreadOk, HandleOk, Linked, Respects, OnlyChanges, Take;
    LocalStepKeeps(s, Take(s, t, h, pc), t, h);
  }

  lemma TakeRespects(s: State, t: Tid, h: Id, pc: Pc)
    requires Inv(s) && t < |s.threads| && Linked(s, h) && OnlyChanges(s, Take(s, t, h, pc), t, h)
    requires (s.threads[t].pc.Idle? && pc.Idle?) || (s.threads[t].pc.Scanning? && pc.Scanning?)
    requires forall k: Id :: Linked(Take(s, t, h, pc), k) == Linked(s, k)
    ensures Respects(s, Take(s, t, h, pc), t, h)
  {
    hide Inv, InRange, Shape, OnePerKey, HandleOk;
    Facts(s, t, h);
  }

  lemma TakeLeavesInOrder(s: State, t: Tid, h: Id, pc: Pc)
    requires Inv(s) && t < |s.threads| && Linked(s, h) && OnlyChanges(s, Take(s, t, h, pc), t, h)
    requires (s.threads[t].pc.Idle? && pc.Idle?) || (s.threads[t].pc.Scanning? && pc.Scanning?)
    requires forall k: Id :: Linked(Take(s, t, h, pc), k) == Linked(s, k)
    ensures var s' := Take(s, t, h, pc); ThreadOk(s', t) && HandleOk(s', h)
  {
    hide Inv, Shape, OnePerKey;
    Facts(s, t, h);
  }

  lemma TakeBesideOwnKeeps(s: State, t: Tid, h: Id)
    requires Inv(s) && t < |s.threads| && Linked(s, h) && s.threads[t].pc.Inserting?
    ensures Inv(Take(s, t, h, Freeing(s.threads[t].pc.h)))
  {
    hide Inv, InRange, Shape, OnePerKey;
    Facts(s, t, h);
    Facts(s, t, s.threads[t].pc.h);
    var x := s.handles[h];
    PutKeepsChains(s, t, h, x.(refs := x.refs + 1), Freeing(s.threads[t].pc.h), s.threads[t].held + multiset{h}, s.mgr);
    LocalStepKeeps(s, Take(s, t, h, Freeing(s.threads[t].pc.h)), t, h);
  }

  /** A step that changes no handle. */
  lemma ThreadStepKeeps(s: State, t: Tid, pc: Pc, mgr: Option<Tid>)
    requires Inv(s) && t < |s.threads| && PcInRange(s, pc)
    requires mgr == s.mgr || (s.mgr.None? && mgr == Some(t)) || (s.mgr == Some(t) && mgr.None?)
    requires MgrPc(pc) <==> mgr == Some(t)
    requires s.threads[t].pc.Idle? || s.threads[t].pc.Opening? || s.threads[t].pc.Scanning?
    requires pc.Idle? || pc.Opening? || pc.Scanning? || (pc.InvWait? && Linked(s, pc.h))
    ensures Inv(SetThread(s, t, pc, s.threads[t].held).(mgr := mgr))
  {
    hide Inv;
    var s', h := SetThread(s, t, pc, s.threads[t].held).(mgr := mgr), |s.handles|;
    Facts(s, t, h);
    LocalStepKeeps(s, s', t, h);
  }

  lemma GiveUpKeeps(s: State, t: Tid)
    requires Inv(s) && t < |s.threads| && s.threads[t].pc.Inserting?
    ensures Inv(SetThread(s, t, Freeing(s.threads[t].pc.h), s.threads[t].held))
  {
    hide Inv;
    var h := s.threads[t].pc.h;
    var s' := SetThread(s, t, Freeing(h), s.threads[t].held);
    Facts(s, t, h);
    LocalStepKeeps(s, s', t, h);
  }

  lemma AcquireKeeps(s: State, t: Tid, key: Key)
    requires Inv(s) && Enabled(s, Acquire(t, key))
    ensures Inv(Do(s, Acquire(t, key)))
  {
    Facts(s, t, 0);
    match Find(s, key)
    case Some(h) => TakeKeeps(s, t, h, Idle);
    case None => ThreadStepKeeps(s, t, Opening(key, true), s.mgr);
  }

  lemma UseKeeps(s: State, t: Tid, k: Id)
    requires Inv(s) && Enabled(s, Use(t, k))
    ensures Inv(Do(s, Use(t, k)))
  {
    hide Inv, InRange, Shape, OnePerKey, Linked;
    var h := k;
    Facts(s, t, h);
    var x, held := s.handles[h], s.threads[t].held;
    PutKeepsChains(s, t, h, x.(lock := Some(t)), Using(h), held, s.mgr);
    LocalStepKeeps(s, Do(s, Use(t, k)), t, h);
  }

  lemma EndUseKeeps(s: State, t: Tid)
    requires Inv(s) && Enabled(s, EndUse(t))
    ensures Inv(Do(s, EndUse(t)))
  {
    hide Inv, InRange, Shape, OnePerKey, Linked;
    var h := s.threads[t].pc.h;
    Facts(s, t, h);
    var x, held := s.handles[h], s.threads[t].held;
    PutKeepsChains(s, t, h, x.(lock := None), Idle, held, s.mgr);
    LocalStepKeeps(s, Do(s, EndUse(t)), t, h);
  }

  lemma GcLockKeeps(s: State, t: Tid)
    requires Inv(s) && Enabled(s, GcLock(t))
    ensures Inv(Do(s, GcLock(t)))
  {
    hide Inv, InRange, Shape, OnePerKey, Linked;
    var h := s.threads[t].pc.h;
    Facts(s, t, h);
    var x, held := s.handles[h], s.threads[t].held;
    PutKeepsChains(s, t, h, x.(lock := Some(t)), GcHold(h), held, s.mgr);
    LocalStepKeeps(s, Do(s, GcLock(t)), t, h);
  }

  lemma GcUnlockKeeps(s: State, t: Tid)
    requires Inv(s) && Enabled(s, GcUnlock(t))
    ensures Inv(Do(s, GcUnlock(t)))
  {
    hide Inv, InRange, Shape, OnePerKey, Linked;
    var h := s.threads[t].pc.h;
    Facts(s, t, h);
    var x, held := s.handles[h], s.threads[t].held;
    PutKeepsChains(s, t, h, x.(lock := None, owner := None), Idle, held, s.mgr);
    LocalStepKeeps(s, Do(s, GcUnlock(t)), t, h);
  }

  lemma InvLockKeeps(s: State, t: Tid)
    requires Inv(s) && Enabled(s, InvLock(t))
    ensures Inv(Do(s, InvLock(t)))
  {
    hide Inv, InRange, Shape, OnePerKey, Linked;
    var h := s.threads[t].pc.h;
    Facts(s, t, h);
    var x, held := s.handles[h], s.threads[t].held;
    PutKeepsChains(s, t, h, x.(lock := Some(t)), InvHold(h), held, None);
    LocalStepKeeps(s, Do(s, InvLock(t)), t, h);
  }

  lemma InvUnlockKeeps(s: State, t: Tid)
    requires Inv(s) && Enabled(s, InvUnlock(t))
    ensures Inv(Do(s, InvUnlock(t)))
  {
    hide Inv, InRange, Shape, OnePerKey, Linked;
    var h := s.threads[t].pc.h;
    Facts(s, t, h);
    var x, held := s.handles[h], s.threads[t].held;
    PutKeepsChains(s, t, h, x.(lock := None), Idle, held, s.mgr);
    LocalStepKeeps(s, Do(s, InvUnlock(t)), t, h);
  }

  lemma EndPeekKeeps(s: State, t: Tid)
    requires Inv(s) && Enabled(s, EndPeek(t))
    ensures Inv(Do(s, EndPeek(t)))
  {
    hide Inv, InRange, Shape, OnePerKey, Linked;
    var h := s.threads[t].pc.h;
    Facts(s, t, h);
    var x, held := s.handles[h], s.threads[t].held;
    PutKeepsChains(s, t, h, x.(lock := None), Scanning, held, s.mgr);
    LocalStepKeeps(s, Do(s, EndPeek(t)), t, h);
  }

  lemma FreeKeeps(s: State, t: Tid)
    requires Inv(s) && Enabled(s, Free(t))
    ensures Inv(Do(s, Free(t)))
  {
    hide Inv, InRange, Shape, OnePerKey, Linked;
    var h := s.threads[t].pc.h;
    Facts(s, t, h);
    FreeingThread(s, t);
    var x, held := s.handles[h], s.threads[t].held;
    PutKeepsChains(s, t, h, x.(freed := true, owner := None), Idle, held, s.mgr);
    LocalStepKeeps(s, Do(s, Free(t)), t, h);
  }

  lemma PeekKeeps(s: State, t: Tid, k: Id)
    requires Inv(s) && Enabled(s, Peek(t, k))
    ensures Inv(Do(s, Peek(t, k)))
  {
    hide Inv, InRange, Shape, OnePerKey;
    var h := k;
    Facts(s, t, h);
    var x, held := s.handles[h], s.threads[t].held;
    PutKeepsChains(s, t, h, x.(lock := Some(t)), Peeking(h), held, s.mgr);
    LocalStepKeeps(s, Do(s, Peek(t, k)), t, h);
  }

  lemma TwoHolders(threads: seq<Thread>, t: Tid, u: Tid, h: Id)
    requires t < |threads| && u < |threads| && t != u
    ensures Holders(threads, h) >= threads[t].held[h] + threads[u].held[h]
  {
    var rest := threads[t := Thread(Idle, multiset{})];
    HoldersUpdate(threads, t, Thread(Idle, multiset{}), h);
    HeldMeansReferenced(rest, u, h);
  }

  /** What DoRelease leaves of the handle, and where the thread goes on. */
  function Released(s: State, t: Tid, h: Id): (Handle, Pc)
    requires h < |s.handles|
  {
    var x := s.handles[h].(refs := if s.handles[h].refs > 0 then s.handles[h].refs - 1 else 0);
    if x.retired && x.refs == 0 then (x.(owner := Some(t)), Freeing(h)) else (x, Idle)
  }

  lemma ReleaseIsPut(s: State, t: Tid, h: Id)
    requires Inv(s) && Enabled(s, Release(t, h)) && h < |s.handles|
    ensures Do(s, Release(t, h)) == Put(s, t, h, Released(s, t, h).0, Released(s, t, h).1, s.threads[t].held - multiset{h}, s.mgr)
  {
  }

  lemma ReleaseSeenByOthers(s: State, t: Tid, h: Id)
    requires Inv(s) && Enabled(s, Release(t, h))
    ensures forall u: Tid :: u < |s.threads| && u != t && Mentions(s.threads[u].pc, h) ==> ThreadOk(Do(s, Release(t, h)), u)
  {
    hide Inv, InRange, Shape, OnePerKey, Linked, Do;
    Facts(s, t, h);
    ReleaseIsPut(s, t, h);
    PutKeepsChains(s, t, h, Released(s, t, h).0, Released(s, t, h).1, s.threads[t].held - multiset{h}, s.mgr);
    forall u: Tid | u < |s.threads| && u != t && Mentions(s.threads[u].pc, h) ensures ThreadOk(Do(s, Release(t, h)), u) {
      ReleaseSeenBy(s, t, h, u);
    }
  }

  lemma ReleaseSeenBy(s: State, t: Tid, h: Id, u: Tid)
    requires Inv(s) && Enabled(s, Release(t, h)) && u < |s.threads| && u != t && Mentions(s.threads[u].pc, h)
    requires InRange(Do(s, Release(t, h)))
    ensures ThreadOk(Do(s, Release(t, h)), u)
  {
    hide Inv, InRange, Shape, OnePerKey, Linked, Do;
    Facts(s, t, h);
    Facts(s, u, h);
    ReleaseIsPut(s, t, h);
    PutKeepsChains(s, t, h, Released(s, t, h).0, Released(s, t, h).1, s.threads[t].held - multiset{h}, s.mgr);
    TwoHolders(s.threads, t, u, h);
    OwnerHoldsToo(s, t, h);
    var s' := Do(s, Release(t, h));
    assert s'.threads[u] == s.threads[u];
    if s.threads[u].pc.InvHold? {
      assert s'.handles[h].owner == s.handles[h].owner;
    }
  }

  lemma ReleaseKeeps(s: State, t: Tid, h: Id)
    requires Inv(s) && Enabled(s, Release(t, h))
    ensures Inv(Do(s, Release(t, h)))
  {
    hide Inv, InRange, Shape, OnePerKey, Linked, Do;
    Facts(s, t, h);
    ReleaseIsPut(s, t, h);
    PutKeepsChains(s, t, h, Released(s, t, h).0, Released(s, t, h).1, s.threads[t].held - multiset{h}, s.mgr);
    ReleaseSeenByOthers(s, t, h);
    OwnerHoldsToo(s, t, h);
    LockerHoldsToo(s, t, h);
    LocalStepKeeps(s, Do(s, Release(t, h)), t, h);
  }

  /** The lock of a retired handle is only ever with somebody who holds it, or whose collector does. */
  lemma LockerHoldsToo(s: State, t: Tid, h: Id)
    requires Inv(s) && t < |s.threads| && s.threads[t].pc.Idle? && h < |s.handles| && h in s.threads[t].held
    ensures s.handles[h].retired && s.handles[h].lock.Some? ==> s.handles[h].refs >= 2
  {
    assert HandleOk(s, h);
    OwnerHoldsToo(s, t, h);
    if s.handles[h].retired && s.handles[h].lock.Some? {
      var v := s.handles[h].lock.value;
      assert ThreadOk(s, v);
      TwoHolders(s.threads, t, v, h);
    }
  }

  /** A handle that thread t holds can be owned only by another thread that holds it as well. */
  lemma OwnerHoldsToo(s: State, t: Tid, h: Id)
    requires Inv(s) && t < |s.threads| && s.threads[t].pc.Idle? && h < |s.handles| && h in s.threads[t].held
    ensures s.handles[h].owner.Some? ==> s.handles[h].refs >= 2 && s.handles[h].owner != Some(t)
  {
    assert HandleOk(s, h);
    if s.handles[h].owner.Some? {
      var u := s.handles[h].owner.value;
      assert ThreadOk(s, u);
      TwoHolders(s.threads, t, u, h);
    }
  }

  lemma OpenKeeps(s: State, t: Tid)
    requires Inv(s) && Enabled(s, Open(t, true))
    ensures Inv(Do(s, Open(t, true)))
  {
    var s', n := Do(s, Open(t, true)), |s.handles|;
    OpenKeepsShape(s, t);
    OpenKeepsRefs(s, t);
    forall k: Id | k < |s'.handles| ensures HandleOk(s', k) { OpenKeepsHandle(s, t, k); }
    forall u: Tid | u < |s.threads| ensures ThreadOk(s', u) { assert ThreadOk(s, u); }
  }

  lemma OpenKeepsShape(s: State, t: Tid)
    requires Inv(s) && Enabled(s, Open(t, true))
    ensures var s' := Do(s, Open(t, true));
            InRange(s') && OnePerKey(s') && forall k: Id :: Linked(s', k) == Linked(s, k)
  {
    var s' := Do(s, Open(t, true));
    forall k: Id | k >= |s.handles| ensures !Linked(s', k) {}
  }

  lemma OpenKeepsHandle(s: State, t: Tid, k: Id)
    requires Inv(s) && Enabled(s, Open(t, true)) && k < |Do(s, Open(t, true)).handles|
    ensures HandleOk(Do(s, Open(t, true)), k)
  {
    OpenKeepsShape(s, t);
    if k < |s.handles| { assert HandleOk(s, k); }
    assert ThreadOk(s, t);
  }

  lemma OpenKeepsRefs(s: State, t: Tid)
    requires Inv(s) && Enabled(s, Open(t, true))
    ensures RefsCount(Do(s, Open(t, true)))
  {
    Counts(s, t, Do(s, Open(t, true)).threads[t]);
    NothingHeldYet(s, |s.handles|);
  }

  lemma NothingHeldYet(s: State, h: Id)
    requires InRange(s) && h >= |s.handles|
    ensures Holders(s.threads, h) == 0
  {
    var n := |s.threads|;
    HoldersOfNone(s.threads, n, h);
    assert s.threads[..n] == s.threads;
  }

  lemma {:induction false} HoldersOfNone(threads: seq<Thread>, n: nat, h: Id)
    requires n <= |threads| && forall i :: 0 <= i < |threads| ==> h !in threads[i].held
    ensures Holders(threads[..n], h) == 0
  {
    if n > 0 {
      assert threads[..n][..n - 1] == threads[..n - 1];
      HoldersOfNone(threads, n - 1, h);
    }
  }

  // Linking and unlinking

  lemma {:induction false} RemoveDrops(chain: seq<Id>, h: Id)
    requires forall i, j :: 0 <= i < j < |chain| ==> chain[i] != chain[j]
    ensures forall k :: k in Remove(chain, h) <==> k in chain && k != h
    ensures |Remove(chain, h)| <= |chain|
  {
    if chain != [] && chain[0] != h {
      RemoveDrops(chain[1..], h);
    }
  }

  lemma {:induction false} RemoveIsSubsequence(chain: seq<Id>, h: Id, handles: seq<Handle>)
    requires forall i :: 0 <= i < |chain| ==> chain[i] < |handles|
    requires forall i, j :: 0 <= i < j < |chain| ==> handles[chain[i]].key != handles[chain[j]].key
    ensures forall i :: 0 <= i < |Remove(chain, h)| ==> Remove(chain, h)[i] in chain
    ensures forall i, j :: 0 <= i < j < |Remove(chain, h)| ==>
              && Remove(chain, h)[i] < |handles| && Remove(chain, h)[j] < |handles|
              && handles[Remove(chain, h)[i]].key != handles[Remove(chain, h)[j]].key
  {
    if chain != [] && chain[0] != h {
      RemoveIsSubsequence(chain[1..], h, handles);
      var rest := Remove(chain[1..], h);
      forall j | 0 <= j < |rest| ensures handles[rest[j]].key != handles[chain[0]].key {
        assert rest[j] in chain[1..];
      }
    }
  }

  lemma UnlinkShape(s: State, h: Id)
    requires InRange(s) && OnePerKey(s) && Linked(s, h)
    ensures InRange(Unlink(s, h)) && OnePerKey(Unlink(s, h))
    ensures forall k: Id :: Linked(Unlink(s, h), k) <==> Linked(s, k) && k != h
  {
    var b := BucketFor(s.handles[h].key);
    var chain := s.buckets[b];
    assert forall i, j :: 0 <= i < j < |chain| ==> chain[i] != chain[j];
    RemoveDrops(chain, h);
    RemoveIsSubsequence(chain, h, s.handles);
  }

  lemma LinkShape(s: State, h: Id)
    requires InRange(s) && OnePerKey(s) && h < |s.handles|
    requires forall k: Id :: Linked(s, k) ==> s.handles[k].key != s.handles[h].key
    ensures InRange(Link(s, h)) && OnePerKey(Link(s, h))
    ensures forall k: Id :: Linked(Link(s, h), k) <==> Linked(s, k) || k == h
  {
    var b := BucketFor(s.handles[h].key);
    forall i | 0 <= i < |s.buckets[b]| ensures s.handles[s.buckets[b][i]].key != s.handles[h].key {
      assert Linked(s, s.buckets[b][i]);
    }
  }

  lemma GcKeeps(s: State, t: Tid, key: Key)
    requires Inv(s) && Enabled(s, Gc(t, key)) && Find(s, key).Some?
    ensures Inv(Do(s, Gc(t, key)))
  {
    var h, s' := Find(s, key).value, Do(s, Gc(t, key));
    UnlinkShape(s, h);
    GcSeenByOthers(s, t, h);
    GcLeavesInOrder(s, t, h);
    LocalStepKeeps(s, s', t, h);
  }

  lemma GcChains(s: State, t: Tid, h: Id)
    requires InRange(s) && OnePerKey(s) && t < |s.threads| && Linked(s, h)
    requires Find(s, s.handles[h].key) == Some(h)
    ensures var s' := DoGc(s, t, s.handles[h].key);
            OnlyChanges(s, s', t, h) && OnePerKey(s') && !Linked(s', h)
  {
    var s', m := DoGc(s, t, s.handles[h].key), Unlink(s, h);
    UnlinkShape(s, h);
    assert forall k: Id :: Linked(s', k) == Linked(m, k);
  }

  lemma GcLeavesInOrder(s: State, t: Tid, h: Id)
    requires Inv(s) && t < |s.threads| && s.threads[t].pc.Idle? && s.mgr.None? && Linked(s, h)
    requires Find(s, s.handles[h].key) == Some(h)
    ensures var s' := DoGc(s, t, s.handles[h].key);
            OnlyChanges(s, s', t, h) && OnePerKey(s') && HandleOk(s', h) && ThreadOk(s', t)
  {
    GcChains(s, t, h);
    Facts(s, t, h);
    hide Inv, OnePerKey, Shape, Linked;
  }

  lemma GcSeenByOthers(s: State, t: Tid, h: Id)
    requires Inv(s) && t < |s.threads| && s.threads[t].pc.Idle? && s.mgr.None? && Linked(s, h)
    requires Find(s, s.handles[h].key) == Some(h) && InRange(DoGc(s, t, s.handles[h].key))
    ensures forall u: Tid :: u < |s.threads| && u != t && Mentions(s.threads[u].pc, h) ==> ThreadOk(DoGc(s, t, s.handles[h].key), u)
  {
    var s' := DoGc(s, t, s.handles[h].key);
    Facts(s, t, h);
  }

  lemma InsertKeeps(s: State, t: Tid, allocates: bool)
    requires Inv(s) && Enabled(s, Insert(t, allocates))
    ensures Inv(Do(s, Insert(t, allocates)))
  {
    var h, acquire := s.threads[t].pc.h, s.threads[t].pc.acquire;
    match Find(s, s.handles[h].key)
    case Some(existing) =>
      if acquire { TakeBesideOwnKeeps(s, t, existing); } else { GiveUpKeeps(s, t); }
    case None =>
      if allocates { LinkKeeps(s, t); } else { GiveUpKeeps(s, t); }
  }

  lemma LinkKeeps(s: State, t: Tid)
    requires Inv(s) && Enabled(s, Insert(t, true)) && Find(s, s.handles[s.threads[t].pc.h].key).None?
    ensures Inv(Do(s, Insert(t, true)))
  {
    var h, s' := s.threads[t].pc.h, Do(s, Insert(t, true));
    LinkLeavesInOrder(s, t);
    Facts(s, t, h);
    LocalStepKeeps(s, s', t, h);
  }

  lemma LinkLeavesInOrder(s: State, t: Tid)
    requires Inv(s) && Enabled(s, Insert(t, true)) && Find(s, s.handles[s.threads[t].pc.h].key).None?
    ensures var h, s' := s.threads[t].pc.h, Do(s, Insert(t, true));
            OnlyChanges(s, s', t, h) && OnePerKey(s') && HandleOk(s', h) && ThreadOk(s', t)
            && s.handles[h].refs == s.threads[t].held[h] == 0 && s.threads[t].pc.Inserting?
  {
    hide Inv;
    Facts(s, t, s.threads[t].pc.h);
    var h, s' := s.threads[t].pc.h, Do(s, Insert(t, true));
    LinkShape(s, h);
    assert forall k: Id :: Linked(s', k) == Linked(Link(s, h), k);
    Facts(s, t, h);
  }

  lemma SweepKeeps(s: State, t: Tid)
    requires Inv(s) && Enabled(s, Sweep(t))
    ensures Inv(Do(s, Sweep(t)))
  {
    var s' := Do(s, Sweep(t));
    SweepKeepsShape(s, t);
    SweepKeepsRefs(s, t);
    forall k: Id | k < |s.handles| ensures HandleOk(s', k) { SweepKeepsHandle(s, t, k); }
    forall u: Tid | u < |s.threads| ensures ThreadOk(s', u) { SweepKeepsThread(s, t, u); }
  }

  lemma SweepKeepsShape(s: State, t: Tid)
    requires Inv(s) && Enabled(s, Sweep(t))
    ensures var s' := Do(s, Sweep(t));
            InRange(s') && OnePerKey(s') && forall k: Id :: Linked(s', k) == Linked(s, k)
  {
  }

  lemma SweepKeepsRefs(s: State, t: Tid)
    requires Inv(s) && Enabled(s, Sweep(t))
    ensures RefsCount(Do(s, Sweep(t)))
  {
    Counts(s, t, Do(s, Sweep(t)).threads[t]);
  }

  lemma SweepKeepsHandle(s: State, t: Tid, k: Id)
    requires Inv(s) && Enabled(s, Sweep(t)) && k < |s.handles|
    ensures HandleOk(Do(s, Sweep(t)), k)
  {
    SweepKeepsShape(s, t);
    assert HandleOk(s, k) && ThreadOk(s, t);
  }

  lemma SweepKeepsThread(s: State, t: Tid, u: Tid)
    requires Inv(s) && Enabled(s, Sweep(t)) && u < |s.threads|
    ensures ThreadOk(Do(s, Sweep(t)), u)
  {
    SweepKeepsShape(s, t);
    assert ThreadOk(s, u);
    var pc := s.threads[u].pc;
    if pc.Inserting? || pc.Freeing? { assert HandleOk(s, pc.h); }
  }

  lemma StepKeeps(s: State, e: Step)
    requires Inv(s) && Enabled(s, e)
    ensures Inv(Do(s, e))
  {
    hide Inv, OnePerKey, HandleOk;
    var t := e.t;
    Facts(s, t, 0);
    match e
    case Acquire(_, key) => AcquireKeeps(s, t, key);
    case Load(_, key) => ThreadStepKeeps(s, t, Opening(key, false), s.mgr);
    case Open(_, opens) => if opens { OpenKeeps(s, t); } else { ThreadStepKeeps(s, t, Idle, s.mgr); }
    case Insert(_, allocates) => InsertKeeps(s, t, allocates);
    case Use(_, h) => UseKeeps(s, t, h);
    case EndUse(_) => EndUseKeeps(s, t);
    case Release(_, h) => ReleaseKeeps(s, t, h);
    case Free(_) => FreeKeeps(s, t);
    case Gc(_, key) => if Find(s, key).Some? { GcKeeps(s, t, key); }
    case GcLock(_) => GcLockKeeps(s, t);
    case GcUnlock(_) => GcUnlockKeeps(s, t);
    case Invalidate(_, key) => if Find(s, key).Some? { ThreadStepKeeps(s, t, InvWait(Find(s, key).value), Some(t)); }
    case InvLock(_) => InvLockKeeps(s, t);
    case InvUnlock(_) => InvUnlockKeeps(s, t);
    case Sweep(_) => SweepKeeps(s, t);
    case Scan(_) => ThreadStepKeeps(s, t, Scanning, Some(t));
    case Peek(_, h) => PeekKeeps(s, t, h);
    case EndPeek(_) => EndPeekKeeps(s, t);
    case ScanTake(_, h) => TakeKeeps(s, t, h, Scanning);
    case EndScan(_) => ThreadStepKeeps(s, t, Idle, None);
  }

  // ---------------------------------------------------------------------------------------------
  // Whole runs

  /** An empty table and n idle threads. */
  function Start(n: nat): State {
    State(seq(BUCKETS, _ => []), [], seq(n, _ => Thread(Idle, multiset{})), None)
  }

  /** `trace` is a run: each state follows from the one before by an enabled step. */
  ghost predicate IsRun(trace: seq<State>, steps: seq<Step>) {
    && |trace| == |steps| + 1
    && (forall i :: 0 <= i < |steps| ==>
          InRange(trace[i]) && Enabled(trace[i], steps[i]) && trace[i + 1] == Do(trace[i], steps[i]))
  }

  /** Thread t holds, locks, owns or waits for handle h. */
  predicate Touches(s: State, t: Tid, h: Id) {
    t < |s.threads| && (h in s.threads[t].held || Mentions(s.threads[t].pc, h))
  }

  /** What the table promises in one state. */
  ghost predicate Safe(s: State) {
    && RefsCount(s)
    && (forall h: Id, k: Id :: Linked(s, h) && Linked(s, k) && s.handles[h].key == s.handles[k].key ==> h == k)
    && (forall h: Id :: Linked(s, h) ==> !s.handles[h].retired && !s.handles[h].freed)
    // A thread that is about to free a handle is alone with it, and frees it for the first time.
    && (forall t :: 0 <= t < |s.threads| && s.threads[t].pc.Freeing? ==>
          var h := s.threads[t].pc.h;
          && h < |s.handles| && !s.handles[h].freed && s.handles[h].lock.None? && !Linked(s, h)
          && (forall u :: 0 <= u < |s.threads| ==> h !in s.threads[u].held)
          && (forall u :: 0 <= u < |s.threads| && u != t ==> !Mentions(s.threads[u].pc, h)))
    // Whatever a thread holds, locks or waits for has not been freed.
    && (forall t: Tid, h: Id :: Touches(s, t, h) ==> h < |s.handles| && !s.handles[h].freed)
    // A retired handle that nobody holds is freed, or being freed.
    && (forall h :: 0 <= h < |s.handles| && s.handles[h].retired && s.handles[h].refs == 0 && !s.handles[h].freed ==>
          exists t :: 0 <= t < |s.threads| && s.threads[t].pc == Freeing(h))
  }

  lemma StartIsInv(n: nat)
    ensures Inv(Start(n))
  {
  }

  lemma InvIsSafe(s: State)
    requires Inv(s)
    ensures Safe(s)
  {
    forall h: Id, k: Id | Linked(s, h) && Linked(s, k) && s.handles[h].key == s.handles[k].key ensures h == k {
      var b := BucketFor(s.handles[h].key);
      var i :| 0 <= i < |s.buckets[b]| && s.buckets[b][i] == h;
      var j :| 0 <= j < |s.buckets[b]| && s.buckets[b][j] == k;
    }
    forall h: Id | Linked(s, h) ensures !s.handles[h].retired && !s.handles[h].freed { assert HandleOk(s, h); }
    forall t | 0 <= t < |s.threads| && s.threads[t].pc.Freeing? ensures FreeingIsAlone(s, t) { FreeingThread(s, t); }
    forall t: Tid, h: Id | Touches(s, t, h) ensures h < |s.handles| && !s.handles[h].freed { NotFreed(s, t, h); }
    forall h | 0 <= h < |s.handles| && s.handles[h].retired && s.handles[h].refs == 0 && !s.handles[h].freed
      ensures exists t :: 0 <= t < |s.threads| && s.threads[t].pc == Freeing(h)
    {
      assert HandleOk(s, h);
      var t := s.handles[h].owner.value;
      assert ThreadOk(s, t);
      HeldMeansReferenced(s.threads, t, h);
    }
  }

  ghost predicate FreeingIsAlone(s: State, t: Tid)
    requires t < |s.threads| && s.threads[t].pc.Freeing?
  {
    var h := s.threads[t].pc.h;
    && h < |s.handles| && !s.handles[h].freed && s.handles[h].lock.None? && !Linked(s, h)
    && (forall u :: 0 <= u < |s.threads| ==> h !in s.threads[u].held)
    && (forall u :: 0 <= u < |s.threads| && u != t ==> !Mentions(s.threads[u].pc, h))
  }

  lemma FreeingThread(s: State, t: Tid)
    requires Inv(s) && t < |s.threads| && s.threads[t].pc.Freeing?
    ensures FreeingIsAlone(s, t)
  {
    var h := s.threads[t].pc.h;
    assert ThreadOk(s, t) && HandleOk(s, h);
    forall u | 0 <= u < |s.threads| ensures h !in s.threads[u].held { HeldMeansReferenced(s.threads, u, h); }
    forall u | 0 <= u < |s.threads| && u != t ensures !Mentions(s.threads[u].pc, h) { assert ThreadOk(s, u); }
  }

  lemma NotFreed(s: State, t: Tid, h: Id)
    requires Inv(s) && Touches(s, t, h)
    ensures h < |s.handles| && !s.handles[h].freed
  {
    assert ThreadOk(s, t) && HandleOk(s, h);
    HeldMeansReferenced(s.threads, t, h);
  }

  /** In every interleaving, at every point: counts are exact, keys are unique, and nothing is freed early or twice. */
  lemma {:induction false} EveryRunIsSafe(n: nat, trace: seq<State>, steps: seq<Step>)
    requires IsRun(trace, steps) && trace[0] == Start(n)
    ensures forall i :: 0 <= i < |trace| ==> Inv(trace[i]) && Safe(trace[i])
  {
    if steps == [] {
      StartIsInv(n);
    } else {
      var k := |steps| - 1;
      EveryRunIsSafe(n, trace[..k + 1], steps[..k]);
      assert trace[k] == trace[..k + 1][k];
      StepKeeps(trace[k], steps[k]);
      forall i | 0 <= i < |trace| ensures Inv(trace[i]) {
        if i <= k { assert trace[i] == trace[..k + 1][i]; }
      }
    }
    forall i | 0 <= i < |trace| ensures Safe(trace[i]) { InvIsSafe(trace[i]); }
  }

  /** Nothing leaks: when every thread is idle and holds nothing, each handle is in the table or has been freed. */
  lemma QuietMeansNoLeak(s: State)
    requires Inv(s)
    requires forall t :: 0 <= t < |s.threads| ==> s.threads[t] == Thread(Idle, multiset{})
    ensures forall h :: 0 <= h < |s.handles| ==> s.handles[h].freed != Linked(s, h)
    ensures forall h :: 0 <= h < |s.handles| && s.handles[h].retired ==> s.handles[h].freed
  {
    forall h | 0 <= h < |s.handles| ensures s.handles[h].freed != Linked(s, h) {
      assert HandleOk(s, h);
      HoldersOfNone(s.threads, |s.threads|, h);
      assert s.threads[..|s.threads|] == s.threads;
    }
    forall h | 0 <= h < |s.handles| && s.handles[h].retired ensures s.handles[h].freed { assert HandleOk(s, h); }
  }

  /** A step that goes on with what a thread is in the middle of. */
  predicate Continues(e: Step) {
    e.Open? || e.Insert? || e.EndUse? || e.Free? || e.GcLock? || e.GcUnlock? || e.InvLock? || e.InvUnlock? || e.EndPeek? || e.EndScan?
  }

  /** Two lock levels, no deadlock: while any thread is busy, some busy thread can go on. */
  lemma NoDeadlock(s: State, t: Tid) returns (e: Step)
    requires Inv(s) && t < |s.threads| && !s.threads[t].pc.Idle?
    ensures Continues(e) && Enabled(s, e)
  {
    var u := if s.mgr.Some? then s.mgr.value else t;
    assert ThreadOk(s, u);
    var pc := s.threads[u].pc;
    match pc
    case Opening(_, _) => e := Open(u, true);
    case Inserting(_, _) => e := Insert(u, true);
    case Freeing(h) => e := Free(u);
    case Using(h) => e := EndUse(u);
    case GcHold(h) => e := GcUnlock(u);
    case InvHold(h) => e := InvUnlock(u);
    case Scanning => e := EndScan(u);
    case Peeking(h) => e := EndPeek(u);
    case GcWait(h) => e := WaiterGoesOn(s, u, h);
    case InvWait(h) => e := WaiterGoesOn(s, u, h);
  }

  /** Whoever holds a handle's lock can give it back without any other lock. */
  lemma WaiterGoesOn(s: State, u: Tid, h: Id) returns (e: Step)
    requires Inv(s) && u < |s.threads| && h < |s.handles| && s.threads[u].pc in {GcWait(h), InvWait(h)}
    ensures Continues(e) && Enabled(s, e)
  {
    assert HandleOk(s, h);
    match s.handles[h].lock
    case None => e := if s.threads[u].pc.GcWait? then GcLock(u) else InvLock(u);
    case Some(v) =>
      match s.threads[v].pc
      case Using(_) => e := EndUse(v);
      case GcHold(_) => e := GcUnlock(v);
      case InvHold(_) => e := InvUnlock(v);
      case Peeking(_) => e := EndPeek(v);
  }

  // ---------------------------------------------------------------------------------------------
  // What the operations achieve

  /** Handle h of that key is in the table. */
  ghost predicate Has(s: State, key: Key, h: Id) {
    Linked(s, h) && s.handles[h].key == key
  }

  lemma LinkedIsUnique(s: State, h: Id, k: Id)
    requires Inv(s) && Linked(s, h) && Linked(s, k) && s.handles[h].key == s.handles[k].key
    ensures h == k
  {
    var chain := s.buckets[BucketFor(s.handles[h].key)];
    var i :| 0 <= i < |chain| && chain[i] == h;
    var j :| 0 <= j < |chain| && chain[j] == k;
    assert forall m, n :: 0 <= m < n < |chain| ==> s.handles[chain[m]].key != s.handles[chain[n]].key;
  }

  /** Nothing but thread t and handle h is different. */
  ghost predicate RestIsSame(s: State, s': State, t: Tid, h: Id) {
    && |s'.threads| == |s.threads| && |s'.handles| == |s.handles| && s'.mgr == s.mgr
    && (forall u: Tid :: u < |s.threads| && u != t ==> s'.threads[u] == s.threads[u])
    && (forall k: Id :: k < |s.handles| && k != h ==> s'.handles[k] == s.handles[k])
  }

  /** Acquiring a key that is in the table gives the thread one more reference to its handle, counted on the handle, and
      nothing else changes. */
  lemma AcquireGives(s: State, t: Tid, key: Key, h: Id)
    requires Inv(s) && Enabled(s, Acquire(t, key)) && Has(s, key, h)
    ensures var s' := Do(s, Acquire(t, key));
            && t < |s'.threads| && h < |s'.handles| && RestIsSame(s, s', t, h) && s'.buckets == s.buckets
            && s'.threads[t] == Thread(Idle, s.threads[t].held + multiset{h})
            && s'.handles[h] == s.handles[h].(refs := s.handles[h].refs + 1)
  {
    LinkedIsUnique(s, h, Find(s, key).value);
  }

  /** Where it is not, the thread goes on to open the file, and the table stays as it is. */
  lemma AcquireMisses(s: State, t: Tid, key: Key)
    requires Inv(s) && Enabled(s, Acquire(t, key)) && forall h: Id :: !Has(s, key, h)
    ensures Do(s, Acquire(t, key)) == s.(threads := s.threads[t := Thread(Opening(key, true), s.threads[t].held)])
  {
    if Find(s, key).Some? { assert Has(s, key, Find(s, key).value); }
  }

  /** An opened handle carries the key that was asked for; a file that does not open ends the attempt. */
  lemma OpenMakes(s: State, t: Tid, opens: bool)
    requires Inv(s) && Enabled(s, Open(t, opens))
    ensures var s', pc := Do(s, Open(t, opens)), s.threads[t].pc;
            && |s'.threads| == |s.threads| && s'.buckets == s.buckets && s'.threads[t].held == s.threads[t].held
            && (if opens then |s'.handles| == |s.handles| + 1 && s'.threads[t].pc == Inserting(|s.handles|, pc.acquire)
                              && s'.handles[|s.handles|].key == pc.key && s'.handles[|s.handles|].refs == 0
                else s'.handles == s.handles && s'.threads[t].pc == Idle)
  {
  }

  /** Inserting what was opened to be acquired: the thread then has a reference to the one handle of that key in the table,
      its own or that of a thread that was faster, whose own handle it then frees; only when there is none and memory runs
      out is there none afterwards. */
  lemma InsertGives(s: State, t: Tid, allocates: bool)
    requires Inv(s) && Enabled(s, Insert(t, allocates)) && s.threads[t].pc.acquire
    ensures var h, s' := s.threads[t].pc.h, Do(s, Insert(t, allocates));
            var key := s.handles[h].key;
            && |s'.threads| == |s.threads|
            && (allocates || (exists k: Id :: Has(s, key, k)) ==>
                  exists k: Id :: Has(s', key, k) && s'.threads[t].held == s.threads[t].held + multiset{k}
                                  && s'.threads[t].pc == (if k == h then Idle else Freeing(h)))
            && (!allocates && (forall k: Id :: !Has(s, key, k)) ==>
                  s' == s.(threads := s.threads[t := Thread(Freeing(h), s.threads[t].held)]))
  {
    var h, s' := s.threads[t].pc.h, Do(s, Insert(t, allocates));
    var key := s.handles[h].key;
    assert ThreadOk(s, t) && HandleOk(s, h);
    match Find(s, key)
    case Some(k) =>
      assert Has(s, key, k) && Has(s', key, k);
    case None =>
      if allocates {
        LinkShape(s, h);
        assert Linked(s', h) == Linked(Link(s, h), h);
        assert Has(s', key, h);
      }
  }

  /** Collecting a key takes it out of the table, and only it: its handle is retired, and the thread holds on to it until
      it has its lock. */
  lemma GcUnlinks(s: State, t: Tid, key: Key)
    requires Inv(s) && Enabled(s, Gc(t, key))
    ensures var s' := Do(s, Gc(t, key));
            && |s'.threads| == |s.threads|
            && (forall k: Id :: Linked(s', k) <==> Linked(s, k) && s.handles[k].key != key)
            && (forall h: Id :: Has(s, key, h) ==>
                  && RestIsSame(s, s', t, h) && s'.handles[h].retired && s'.handles[h].refs == s.handles[h].refs + 1
                  && s'.threads[t] == Thread(GcWait(h), s.threads[t].held + multiset{h}))
            && ((forall h: Id :: !Has(s, key, h)) ==> s' == s)
  {
    var s' := Do(s, Gc(t, key));
    match Find(s, key)
    case None =>
    case Some(h) =>
      assert Has(s, key, h);
      UnlinkShape(s, h);
      assert forall k: Id :: Linked(s', k) == Linked(Unlink(s, h), k);
      forall k: Id | Linked(s, k) && s.handles[k].key == key ensures k == h { LinkedIsUnique(s, h, k); }
  }

  /** Releasing gives up one reference, counted on the handle; the last one to a retired handle goes on to free it. */
  lemma ReleaseGivesUp(s: State, t: Tid, h: Id)
    requires Inv(s) && Enabled(s, Release(t, h))
    ensures var s' := Do(s, Release(t, h));
            && h < |s.handles| && RestIsSame(s, s', t, h) && s'.buckets == s.buckets
            && s.handles[h].refs > 0 && s'.handles[h].refs == s.handles[h].refs - 1
            && s'.threads[t] == Thread(if s.handles[h].retired && s.handles[h].refs == 1 then Freeing(h) else Idle,
                                       s.threads[t].held - multiset{h})
  {
    Facts(s, t, h);
  }

  /** The cleanup pass takes one reference to each handle in the table, and to no other. */
  lemma SweepTakes(s: State, t: Tid)
    requires Inv(s) && Enabled(s, Sweep(t))
    ensures var s' := Do(s, Sweep(t));
            && |s'.threads| == |s.threads| && |s'.handles| == |s.handles| && s'.buckets == s.buckets
            && forall h: Id :: h < |s.handles| ==>
                 && s'.handles[h].refs == s.handles[h].refs + (if Linked(s, h) then 1 else 0)
                 && s'.threads[t].held[h] == s.threads[t].held[h] + (if Linked(s, h) then 1 else 0)
  {
  }

  /** A handle is found where its two leading digits put it. */
  lemma BucketIsLeadingByte(key: Key)
    ensures BucketFor(key) == 16 * Digit(key[0]) + Digit(key[1])
  {
  }
}
