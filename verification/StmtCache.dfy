/** The prepared-statement cache of a shard (src/engine/shard.c, src/engine/manager.c): eight slots, first in
    first out, keyed by a text that is kept in a 192-byte buffer. */
module StmtCache {
  import opened Strings

  const CACHE_SIZE := 8
  const TEXT_BUFFER: nat := 192

  type Handle = nat

  datatype Slot = Slot(sql: string, stmt: Handle)

  /** What SQLite knows of a statement: the text it was compiled from and the connection it belongs to. */
  datatype Compiled = Compiled(sql: string, conn: nat)

  /** The cache, and beside it SQLite's view: every handle handed out and those not yet finalised. */
  datatype State = State(slots: seq<Slot>, conn: nat, compiled: map<Handle, Compiled>, live: set<Handle>, next: Handle)

  function Find(slots: seq<Slot>, sql: string): (i: nat)
    ensures i <= |slots| && (i < |slots| ==> slots[i].sql == sql)
    ensures forall k :: 0 <= k < i ==> slots[k].sql != sql
  {
    if slots == [] || slots[0].sql == sql then 0 else 1 + Find(slots[1..], sql)
  }

  function HandlesOf(slots: seq<Slot>): set<Handle> {
    set i | 0 <= i < |slots| :: slots[i].stmt
  }

  function Evict(s: State): State {
    if |s.slots| == CACHE_SIZE
    then s.(slots := s.slots[1..], live := s.live - {s.slots[0].stmt})
    else s
  }

  function Prepare(s: State, sql: string): State {
    s.(slots := s.slots + [Slot(Clip(sql, TEXT_BUFFER), s.next)],
       compiled := s.compiled[s.next := Compiled(sql, s.conn)],
       live := s.live + {s.next}, next := s.next + 1)
  }

  /** One lookup; `prepares` says whether SQLite accepts the text when it has to be compiled. */
  function StmtFor(s: State, sql: string, prepares: bool): (State, Option<Handle>) {
    var i := Find(s.slots, sql);
    if i < |s.slots| then (s, Some(s.slots[i].stmt))
    else if prepares then (Prepare(Evict(s), sql), Some(s.next))
    else (Evict(s), None)
  }

  /** Replacing the connection finalises every cached statement first; it is replaced only when the fresh one opened
      and passed its check. */
  function Reconnect(s: State, passed: bool): State {
    if passed then State([], s.conn + 1, s.compiled, s.live - HandlesOf(s.slots), s.next) else s
  }

  class Shard {
    var slots: seq<Slot>
    var conn: nat
    var compiled: map<Handle, Compiled>
    var live: set<Handle>
    var next: Handle

    function Now(): State
      reads this
    {
      State(slots, conn, compiled, live, next)
    }

    constructor ()
      ensures Now() == State([], 0, map[], {}, 0)
    {
      slots, conn, compiled, live, next := [], 0, map[], {}, 0;
    }

    method Get(sql: string, prepares: bool) returns (stmt: Option<Handle>)
      modifies this
      ensures (Now(), stmt) == StmtFor(old(Now()), sql, prepares)
    {
      for i := 0 to |slots|
        invariant forall k :: 0 <= k < i ==> slots[k].sql != sql
        invariant Now() == old(Now())
      {
        if slots[i].sql == sql {
          return Some(slots[i].stmt);
        }
      }
      if |slots| == CACHE_SIZE {
        live := live - {slots[0].stmt};
        slots := slots[1..];
      }
      if !prepares {
        return None;
      }
      stmt := Some(next);
      compiled := compiled[next := Compiled(sql, conn)];
      live := live + {next};
      slots := slots + [Slot(Clip(sql, TEXT_BUFFER), next)];
      next := next + 1;
    }

    method Invalidate(passed: bool)
      modifies this
      ensures Now() == Reconnect(old(Now()), passed)
    {
      if !passed {
        return;
      }
      for i := 0 to |slots|
        invariant slots == old(slots)
        invariant live == old(live) - HandlesOf(slots[..i])
        invariant conn == old(conn) && compiled == old(compiled) && next == old(next)
      {
        live := live - {slots[i].stmt};
      }
      assert slots[..|slots|] == slots;
      slots := [];
      conn := conn + 1;
    }
  }

  /** The cache is exactly the set of unfinalised statements, each compiled from its slot's text on this connection. */
  ghost predicate Valid(s: State) {
    && |s.slots| <= 8
    && s.live == HandlesOf(s.slots)
    && (forall i, j :: 0 <= i < j < |s.slots| ==> s.slots[i].sql != s.slots[j].sql && s.slots[i].stmt != s.slots[j].stmt)
    && (forall i :: 0 <= i < |s.slots| ==> SlotOk(s, s.slots[i]))
  }

  ghost predicate SlotOk(s: State, x: Slot) {
    |x.sql| < 192 && x.stmt < s.next && x.stmt in s.compiled && s.compiled[x.stmt] == Compiled(x.sql, s.conn)
  }

  lemma EvictKeepsValid(s: State)
    requires Valid(s)
    ensures Valid(Evict(s)) && |Evict(s).slots| < 8
    ensures forall x :: Find(s.slots, x) == |s.slots| ==> Find(Evict(s).slots, x) == |Evict(s).slots|
  {
    if |s.slots| == CACHE_SIZE {
      var rest := s.slots[1..];
      assert s.slots == [s.slots[0]] + rest;
      forall h ensures h in HandlesOf(rest) <==> h in s.live && h != s.slots[0].stmt {
        if h in s.live && h != s.slots[0].stmt {
          var i :| 0 <= i < |s.slots| && s.slots[i].stmt == h;
          assert rest[i - 1].stmt == h;
        }
      }
      assert Evict(s).live == HandlesOf(rest);
    }
  }

  lemma HandlesOfMore(slots: seq<Slot>, x: Slot)
    ensures HandlesOf(slots + [x]) == HandlesOf(slots) + {x.stmt}
  {
    var more := slots + [x];
    forall h | h in HandlesOf(slots) ensures h in HandlesOf(more) {
      var i :| 0 <= i < |slots| && slots[i].stmt == h;
      assert more[i].stmt == h;
    }
    assert more[|slots|].stmt == x.stmt;
  }

  lemma NotFound(slots: seq<Slot>, sql: string)
    requires Find(slots, sql) == |slots|
    ensures forall i :: 0 <= i < |slots| ==> slots[i].sql != sql
  {
  }

  lemma PrepareKeepsValid(s: State, sql: string)
    requires Valid(s) && |sql| < 192 && |s.slots| < 8 && Find(s.slots, sql) == |s.slots|
    ensures Valid(Prepare(s, sql))
  {
    hide HandlesOf;
    var t := Prepare(s, sql);
    HandlesOfMore(s.slots, Slot(sql, s.next));
    NotFound(s.slots, sql);
    forall i | 0 <= i < |t.slots| ensures SlotOk(t, t.slots[i]) {
      if i < |s.slots| { assert SlotOk(s, s.slots[i]); }
    }
    forall i, j | 0 <= i < j < |t.slots| ensures t.slots[i].sql != t.slots[j].sql && t.slots[i].stmt != t.slots[j].stmt {
      assert SlotOk(s, s.slots[i]);
    }
  }

  /** A lookup hands out a live statement compiled from that very text, or misses because SQLite refused it. */
  lemma LookupKeepsValid(s: State, sql: string, prepares: bool)
    requires Valid(s) && |sql| < 192
    ensures var (t, h) := StmtFor(s, sql, prepares);
            && Valid(t) && t.conn == s.conn
            && (h.None? <==> Find(s.slots, sql) == |s.slots| && !prepares)
            && (h.Some? ==> h.value in t.live && h.value in t.compiled && t.compiled[h.value] == Compiled(sql, s.conn))
  {
    EvictKeepsValid(s);
    if Find(s.slots, sql) < |s.slots| {
      assert s.slots[Find(s.slots, sql)].stmt in HandlesOf(s.slots);
    } else if prepares {
      PrepareKeepsValid(Evict(s), sql);
    }
  }

  /** First in, first out: of a full cache the oldest entry gives way and the others move up by one; a cache that is not
      full keeps them all, and the new entry is the last. */
  lemma OldestGivesWay(s: State, sql: string)
    requires Valid(s) && |sql| < 192 && Find(s.slots, sql) == |s.slots|
    ensures var t := StmtFor(s, sql, true).0;
            t.slots == (if |s.slots| == 8 then s.slots[1..] else s.slots) + [Slot(sql, s.next)]
  {
  }

  datatype Request = Ask(sql: string, prepares: bool) | Reopen(passed: bool)

  function Serve(s: State, r: Request): State {
    match r
    case Ask(sql, prepares) => StmtFor(s, sql, prepares).0
    case Reopen(passed) => Reconnect(s, passed)
  }

  function ServeAll(s: State, rs: seq<Request>): State {
    if rs == [] then s else Serve(ServeAll(s, rs[..|rs| - 1]), rs[|rs| - 1])
  }

  /** Over every run of lookups, evictions, refused texts and reconnections, failed ones included. */
  lemma {:induction false} CacheStaysValid(s: State, rs: seq<Request>)
    requires Valid(s)
    requires forall i :: 0 <= i < |rs| && rs[i].Ask? ==> |rs[i].sql| < 192
    ensures Valid(ServeAll(s, rs))
  {
    if rs != [] {
      var front, last := rs[..|rs| - 1], rs[|rs| - 1];
      CacheStaysValid(s, front);
      if last.Ask? {
        LookupKeepsValid(ServeAll(s, front), last.sql, last.prepares);
      }
    }
  }

  /** The buffer bound is exact: the clipped text finds a statement compiled from it just when nothing was clipped. */
  lemma ClippedTextFindsTheOther(s: State, sql: string)
    requires Valid(s) && Find(s.slots, Clip(sql, TEXT_BUFFER)) == |s.slots|
    ensures var t := StmtFor(s, sql, true).0;
            var (u, h) := StmtFor(t, Clip(sql, TEXT_BUFFER), true);
            h.Some? && h.value in u.compiled
            && (u.compiled[h.value].sql == Clip(sql, TEXT_BUFFER) <==> |sql| < 192)
  {
    EvictKeepsValid(s);
    var key := Clip(sql, TEXT_BUFFER);
    var t := StmtFor(s, sql, true).0;
    if Find(s.slots, sql) == |s.slots| {
      var e := Evict(s);
      assert t.slots == e.slots + [Slot(key, s.next)];
      assert Find(e.slots, key) == |e.slots|;
      var i := Find(t.slots, key);
      assert t.slots[|e.slots|].sql == key;
      assert i == |e.slots|;
    }
  }
}
