/** Write-back of an EQL statement (src/eql/epsilon_eql.c): SQLite runs the statement on a shadow table and reports
    the row of each change; afterwards the reports are replayed, one record at a time, onto the store. */
module EqlWriteBack {
  import opened Strings

  const ID_BUFFER: nat := 512
  const KS_BUFFER: nat := 128
  const MAX_EVENTS := 0x10_0000

  type Doc = string
  type RowId = int

  datatype Class = Insert | Update | Delete

  /** A row hook's report: no more than the kind of change and the row. */
  datatype Event = Event(op: Class, rowid: RowId)

  // ---------------------------------------------------------------------------------------------
  // Buffering the reports

  /** The event buffer grows by doubling from 256 and refuses to grow beyond 2^20. */
  class TrapBuffer {
    var events: seq<Event>
    var cap: nat
    var overflow: bool

    ghost predicate Valid()
      reads this
    {
      && cap in {0, 0x100, 0x200, 0x400, 0x800, 0x1000, 0x2000, 0x4000, 0x8000, 0x1_0000, 0x2_0000, 0x4_0000, 0x8_0000, MAX_EVENTS}
      && |events| <= cap
    }

    constructor ()
      ensures Valid() && events == [] && !overflow
    {
      events, cap, overflow := [], 0, false;
    }

    /** Nothing is lost before 2^20 reports; the next one sets the overflow flag for good. */
    method Push(e: Event)
      requires Valid()
      modifies this
      ensures Valid()
      ensures overflow == (old(overflow) || |old(events)| == 0x10_0000)
      ensures events == if overflow then old(events) else old(events) + [e]
    {
      if overflow {
        return;
      }
      if |events| == cap {
        var grown := if cap > 0 then cap * 2 else 256;
        if grown > MAX_EVENTS {
          overflow := true;
          return;
        }
        cap := grown;
      }
      events := events + [e];
    }
  }

  // ---------------------------------------------------------------------------------------------
  // The shadow table while the statement runs

  datatype Row = Row(id: string, doc: Doc)
  type Table = map<RowId, Row>

  datatype RowOp = InsertRow(rowid: RowId, id: string, doc: Doc) | UpdateRow(rowid: RowId, id: string, doc: Doc) | DeleteRow(rowid: RowId)

  function EventOf(o: RowOp): Event {
    Event(match o case InsertRow(_, _, _) => Insert case UpdateRow(_, _, _) => Update case DeleteRow(_) => Delete, o.rowid)
  }

  /** The primary key is checked as each row changes. */
  ghost predicate Allowed(t: Table, o: RowOp) {
    match o
    case InsertRow(r, id, _) => r !in t && forall k :: k in t ==> t[k].id != id
    case UpdateRow(r, id, _) => r in t && forall k :: k in t && k != r ==> t[k].id != id
    case DeleteRow(r) => r in t
  }

  function Exec(t: Table, o: RowOp): Table {
    match o
    case InsertRow(r, id, doc) => t[r := Row(id, doc)]
    case UpdateRow(r, id, doc) => t[r := Row(id, doc)]
    case DeleteRow(r) => t - {r}
  }

  function ExecAll(t: Table, ops: seq<RowOp>): Table {
    if ops == [] then t else Exec(ExecAll(t, ops[..|ops| - 1]), ops[|ops| - 1])
  }

  function Events(ops: seq<RowOp>): seq<Event> {
    seq(|ops|, i requires 0 <= i < |ops| => EventOf(ops[i]))
  }

  /** A run SQLite lets through: one class of change, each change allowed when it happens, no row updated twice. */
  ghost predicate Statement(t: Table, ops: seq<RowOp>, c: Class) {
    && (forall i :: 0 <= i < |ops| ==> EventOf(ops[i]).op == c && Allowed(ExecAll(t, ops[..i]), ops[i]))
    && (forall i, j :: 0 <= i < j < |ops| ==> ops[i].rowid != ops[j].rowid)
  }

  // ---------------------------------------------------------------------------------------------
  // The row map: which record each shadow row came from

  datatype Record = Record(t: nat, rowid: RowId, id: string, ks: string)

  /** The latest record of a row. */
  function Find(rs: seq<Record>, t: nat, rowid: RowId): (r: Option<nat>)
    ensures r.Some? ==> r.value < |rs| && rs[r.value].t == t && rs[r.value].rowid == rowid
    ensures forall i :: (if r.Some? then r.value else -1) < i < |rs| ==> rs[i].t != t || rs[i].rowid != rowid
  {
    if rs == [] then None
    else
      var last := |rs| - 1;
      if rs[last].t == t && rs[last].rowid == rowid then Some(last) else Find(rs[..last], t, rowid)
  }

  function Found(rs: seq<Record>, t: nat, rowid: RowId): Option<Record> {
    match Find(rs, t, rowid) case None => None case Some(i) => Some(rs[i])
  }

  function Without(rs: seq<Record>, t: nat, rowid: RowId): seq<Record> {
    match Find(rs, t, rowid) case None => rs case Some(i) => rs[..i] + rs[i + 1..]
  }

  function NewRecord(t: nat, rowid: RowId, id: string, ks: string): Record {
    Record(t, rowid, Clip(id, ID_BUFFER), Clip(ks, KS_BUFFER))
  }

  lemma {:induction false} FindIsLast(rs: seq<Record>, t: nat, rowid: RowId, i: nat)
    requires i < |rs| && rs[i].t == t && rs[i].rowid == rowid
    requires forall k :: i < k < |rs| ==> rs[k].t != t || rs[k].rowid != rowid
    ensures Find(rs, t, rowid) == Some(i)
  {
  }

  lemma AddedIsFound(rs: seq<Record>, x: Record, t: nat, rowid: RowId)
    ensures Found(rs + [x], t, rowid) == if x.t == t && x.rowid == rowid then Some(x) else Found(rs, t, rowid)
  {
    assert (rs + [x])[..|rs|] == rs;
  }

  lemma OthersStayFound(rs: seq<Record>, t: nat, gone: RowId, rowid: RowId)
    requires rowid != gone
    ensures Found(Without(rs, t, gone), t, rowid) == Found(rs, t, rowid)
  {
    var g := Find(rs, t, gone);
    if g.Some? {
      var rest := Without(rs, t, gone);
      assert forall i :: 0 <= i < g.value ==> rest[i] == rs[i];
      assert forall i :: g.value <= i < |rest| ==> rest[i] == rs[i + 1];
      var f := Find(rs, t, rowid);
      if f.Some? {
        FindIsLast(rest, t, rowid, if f.value < g.value then f.value else f.value - 1);
      }
    }
  }

  // ---------------------------------------------------------------------------------------------
  // Replaying

  type Key = (string, string)

  /** What readers of one partition see: a document per keyspace and id. */
  type Store = map<Key, Doc>

  /** The statement's target table: its place in the table list, whether it merges keyspaces, or the one it has. */
  datatype Target = Target(t: nat, pw: bool, ks: string)

  datatype State = State(records: seq<Record>, store: Store, applied: seq<string>, failed: seq<string>)

  /** One event, given the committed table. `junk` is the never-written buffer a fresh row's record is made from. */
  function Replay(s: State, e: Event, committed: Table, target: Target, junk: string): State {
    var known := Found(s.records, target.t, e.rowid);
    var rest := Without(s.records, target.t, e.rowid);
    if e.op == Delete then
      match known
      case None => s.(failed := s.failed + ["-"])
      case Some(x) => State(rest, s.store - {(x.ks, x.id)}, s.applied + [x.id], s.failed)
    else if e.rowid !in committed then
      match known
      case None => s.(failed := s.failed + ["-"])
      case Some(x) => s.(records := rest, applied := s.applied + [x.id])
    else
      var (id, doc) := (Clip(committed[e.rowid].id, ID_BUFFER), committed[e.rowid].doc);
      match known
      case None =>
        State(rest + [NewRecord(target.t, e.rowid, id, junk)], s.store[(if target.pw then "" else target.ks, id) := doc],
              s.applied + [id], s.failed)
      case Some(x) =>
        var renamed := x.id != id;
        var store := if renamed then s.store - {(x.ks, x.id)} else s.store;
        State(rest + [NewRecord(target.t, e.rowid, id, x.ks)], store[(x.ks, id) := doc],
              s.applied + (if renamed then [x.id] else []) + [id], s.failed)
  }

  function ReplayAll(s: State, es: seq<Event>, committed: Table, target: Target, junk: string): State {
    if es == [] then s
    else Replay(ReplayAll(s, es[..|es| - 1], committed, target, junk), es[|es| - 1], committed, target, junk)
  }

  class Replayer {
    var records: seq<Record>
    var store: Store
    var applied: seq<string>
    var failed: seq<string>

    function Now(): State
      reads this
    {
      State(records, store, applied, failed)
    }

    constructor (records: seq<Record>, store: Store)
      ensures Now() == State(records, store, [], [])
    {
      this.records, this.store, applied, failed := records, store, [], [];
    }

    method MapAdd(t: nat, rowid: RowId, id: string, ks: string)
      modifies this`records
      ensures records == old(records) + [NewRecord(t, rowid, id, ks)]
    {
      records := records + [Record(t, rowid, Clip(id, ID_BUFFER), Clip(ks, KS_BUFFER))];
    }

    /** map_take: searches from the end and closes the gap. */
    method MapTake(t: nat, rowid: RowId) returns (taken: Option<Record>)
      modifies this`records
      ensures taken == Found(old(records), t, rowid) && records == Without(old(records), t, rowid)
    {
      var i := |records|;
      while i > 0
        invariant 0 <= i <= |records| && records == old(records)
        invariant forall k :: i <= k < |records| ==> records[k].t != t || records[k].rowid != rowid
      {
        if records[i - 1].t == t && records[i - 1].rowid == rowid {
          FindIsLast(records, t, rowid, i - 1);
          taken := Some(records[i - 1]);
          records := records[..i - 1] + records[i..];
          return;
        }
        i := i - 1;
      }
      return None;
    }

    /** A buffer that has overflowed is not replayed at all. */
    method ProcessEvents(es: seq<Event>, overflow: bool, committed: Table, target: Target, junk: string)
      modifies this
      ensures Now() == if overflow then old(Now()) else ReplayAll(old(Now()), es, committed, target, junk)
    {
      var i := 0;
      while i < |es| && !overflow
        invariant 0 <= i <= |es|
        invariant Now() == if overflow then old(Now()) else ReplayAll(old(Now()), es[..i], committed, target, junk)
      {
        assert es[..i + 1][..i] == es[..i];
        ProcessEvent(es[i], committed, target, junk);
        i := i + 1;
      }
      assert !overflow ==> es[..i] == es;
    }

    method ProcessEvent(e: Event, committed: Table, target: Target, junk: string)
      modifies this
      ensures Now() == Replay(old(Now()), e, committed, target, junk)
    {
      if e.op == Delete {
        var gone := MapTake(target.t, e.rowid);
        if gone.None? {
          failed := failed + ["-"];
          return;
        }
        store := store - {(gone.value.ks, gone.value.id)};
        applied := applied + [gone.value.id];
        return;
      }
      if e.rowid !in committed {
        var stale := MapTake(target.t, e.rowid);
        if stale.Some? {
          applied := applied + [stale.value.id];
        } else {
          failed := failed + ["-"];
        }
        return;
      }
      var curId := Clip(committed[e.rowid].id, ID_BUFFER);
      var was := MapTake(target.t, e.rowid);
      var oldKs := if was.Some? then was.value.ks else junk;
      MapAdd(target.t, e.rowid, curId, oldKs);
      if was.Some? && was.value.id != curId {
        store := store - {(oldKs, was.value.id)};
        applied := applied + [was.value.id];
      }
      var ks := if was.Some? then oldKs else if target.pw then "" else target.ks;
      store := store[(ks, curId) := committed[e.rowid].doc];
      applied := applied + [curId];
    }
  }

  // ---------------------------------------------------------------------------------------------
  // The simulation

  type Homes = map<RowId, string>

  /** Within the keyspaces of `scope` the store holds exactly the rows of the table, each in its own keyspace. */
  ghost predicate Mirrors(store: Store, t: Table, ks: Homes, scope: set<string>) {
    && (forall r :: r in t ==> r in ks && ks[r] in scope && (ks[r], t[r].id) in store && store[(ks[r], t[r].id)] == t[r].doc)
    && (forall k :: k in store && k.0 in scope ==> exists r :: r in t && r in ks && k == (ks[r], t[r].id))
  }

  ghost predicate UniqueIds(t: Table) {
    forall r, q :: r in t && q in t && r != q ==> t[r].id != t[q].id
  }

  /** The row map knows every row under its names as cut to the buffers (or, for an INSERT, knows no row that is
      still to come). */
  ghost predicate Tracks(rs: seq<Record>, target: Target, t: Table, ks: Homes, c: Class) {
    if c == Insert then forall r :: r !in t ==> Found(rs, target.t, r) == None
    else forall r :: r in t && r in ks ==> Found(rs, target.t, r) == Some(NewRecord(target.t, r, t[r].id, ks[r]))
  }

  /** The names a row has before it is changed fit their buffers. */
  predicate RowFits(t: Table, ks: Homes, r: RowId) {
    r in t && r in ks ==> |t[r].id| < 512 && |ks[r]| < 128
  }

  /** The names that a change touches, old and new, fit their buffers. */
  predicate OpFits(t: Table, ks: Homes, o: RowOp) {
    match o
    case InsertRow(_, id, _) => |id| < 512
    case UpdateRow(r, id, _) => |id| < 512 && RowFits(t, ks, r)
    case DeleteRow(r) => RowFits(t, ks, r)
  }

  ghost predicate AllFit(t: Table, ks: Homes, ops: seq<RowOp>) {
    forall i :: 0 <= i < |ops| ==> OpFits(t, ks, ops[i])
  }

  /** A new row lives in the target's keyspace. */
  function HomesAfter(ks: Homes, target: Target, ops: seq<RowOp>): Homes {
    if ops == [] then ks
    else
      var before, o := HomesAfter(ks, target, ops[..|ops| - 1]), ops[|ops| - 1];
      if o.InsertRow? then before[o.rowid := target.ks] else before
  }

  ghost predicate Simulates(s: State, target: Target, t: Table, ks: Homes, scope: set<string>, c: Class) {
    && Mirrors(s.store, t, ks, scope) && UniqueIds(t) && Tracks(s.records, target, t, ks, c)
  }

  ghost predicate SameOutside(a: Store, b: Store, scope: set<string>) {
    forall k: Key :: k.0 !in scope ==> (k in a <==> k in b) && (k in a ==> a[k] == b[k])
  }

  lemma DeleteSimulates(s: State, target: Target, t: Table, ks: Homes, scope: set<string>, r: RowId, committed: Table, junk: string)
    requires Simulates(s, target, t, ks, scope, Delete) && r in t && RowFits(t, ks, r)
    ensures var s' := Replay(s, Event(Delete, r), committed, target, junk);
            Simulates(s', target, t - {r}, ks, scope, Delete) && s'.failed == s.failed && SameOutside(s.store, s'.store, scope)
  {
    TracksKept(s, target, t, ks, Delete, DeleteRow(r), committed, junk);
  }

  /** Whether names fit or not, one replayed change keeps the row map up to date. */
  lemma TracksKept(s: State, target: Target, t: Table, ks: Homes, c: Class, o: RowOp, committed: Table, junk: string)
    requires Tracks(s.records, target, t, ks, c) && EventOf(o).op == c && Allowed(t, o) && (o.rowid in t ==> o.rowid in ks)
    requires c != Delete ==> o.rowid in committed && committed[o.rowid] == Row(o.id, o.doc)
    ensures var s' := Replay(s, EventOf(o), committed, target, junk);
            Tracks(s'.records, target, Exec(t, o), if o.InsertRow? then ks[o.rowid := target.ks] else ks, c)
  {
    hide Found, Without;
    var r, s', t' := o.rowid, Replay(s, EventOf(o), committed, target, junk), Exec(t, o);
    var rest := Without(s.records, target.t, r);
    forall q | q != r ensures Found(rest, target.t, q) == Found(s.records, target.t, q) {
      OthersStayFound(s.records, target.t, r, q);
    }
    if c != Delete {
      var x := s'.records[|s'.records| - 1];
      assert s'.records == rest + [x];
      forall q ensures Found(s'.records, target.t, q) == if x.t == target.t && x.rowid == q then Some(x) else Found(rest, target.t, q) {
        AddedIsFound(rest, x, target.t, q);
      }
    }
  }

  lemma InsertSimulates(s: State, target: Target, t: Table, ks: Homes, scope: set<string>, o: RowOp, committed: Table, junk: string)
    requires Simulates(s, target, t, ks, scope, Insert) && o.InsertRow? && Allowed(t, o)
    requires !target.pw && target.ks in scope && |o.id| < 512
    requires o.rowid in committed && committed[o.rowid] == Row(o.id, o.doc)
    ensures var s' := Replay(s, EventOf(o), committed, target, junk);
            && Simulates(s', target, Exec(t, o), ks[o.rowid := target.ks], scope, Insert)
            && s'.failed == s.failed && SameOutside(s.store, s'.store, scope)
  {
    var r, s' := o.rowid, Replay(s, EventOf(o), committed, target, junk);
    TracksKept(s, target, t, ks, Insert, o, committed, junk);
    hide Found, Without;
    assert Found(s.records, target.t, r) == None;
    var t', ks' := Exec(t, o), ks[r := target.ks];
    forall k | k in s'.store && k.0 in scope ensures exists q :: q in t' && q in ks' && k == (ks'[q], t'[q].id) {
      if k == (target.ks, o.id) {
        assert r in t' && r in ks';
      } else {
        var q :| q in t && q in ks && k == (ks[q], t[q].id);
        assert q in t' && q in ks';
      }
    }
  }

  lemma UpdateSimulates(s: State, target: Target, t: Table, ks: Homes, scope: set<string>, o: RowOp, committed: Table, junk: string)
    requires Simulates(s, target, t, ks, scope, Update) && o.UpdateRow? && Allowed(t, o) && OpFits(t, ks, o)
    requires o.rowid in committed && committed[o.rowid] == Row(o.id, o.doc)
    ensures var s' := Replay(s, EventOf(o), committed, target, junk);
            && Simulates(s', target, Exec(t, o), ks, scope, Update)
            && s'.failed == s.failed && SameOutside(s.store, s'.store, scope)
  {
    var r, s' := o.rowid, Replay(s, EventOf(o), committed, target, junk);
    TracksKept(s, target, t, ks, Update, o, committed, junk);
    hide Found, Without;
    assert Found(s.records, target.t, r) == Some(Record(target.t, r, t[r].id, ks[r]));
    UpdateMirrors(s.store, s'.store, t, ks, scope, o);
  }

  function Renamed(store: Store, t: Table, ks: Homes, o: RowOp): Store
    requires o.UpdateRow? && o.rowid in t && o.rowid in ks
  {
    var r := o.rowid;
    (if t[r].id != o.id then store - {(ks[r], t[r].id)} else store)[(ks[r], o.id) := o.doc]
  }

  /** The store after a rename: no other row of the table has the old key, and none has the new one. */
  lemma UpdateMirrors(store: Store, store': Store, t: Table, ks: Homes, scope: set<string>, o: RowOp)
    requires Mirrors(store, t, ks, scope) && UniqueIds(t) && o.UpdateRow? && Allowed(t, o)
    requires store' == Renamed(store, t, ks, o)
    ensures Mirrors(store', Exec(t, o), ks, scope) && UniqueIds(Exec(t, o)) && SameOutside(store, store', scope)
  {
    RowsAfterUpdate(store, t, ks, scope, o);
    KeysAfterUpdate(store, t, ks, scope, o);
    assert o.rowid in t && ks[o.rowid] in scope;
  }

  lemma RowsAfterUpdate(store: Store, t: Table, ks: Homes, scope: set<string>, o: RowOp)
    requires Mirrors(store, t, ks, scope) && UniqueIds(t) && o.UpdateRow? && Allowed(t, o)
    ensures var store', t' := Renamed(store, t, ks, o), Exec(t, o);
            forall r :: r in t' ==> r in ks && ks[r] in scope && (ks[r], t'[r].id) in store' && store'[(ks[r], t'[r].id)] == t'[r].doc
  {
    forall q | q in t && q != o.rowid ensures t[q].id != t[o.rowid].id && t[q].id != o.id {}
  }

  lemma KeysAfterUpdate(store: Store, t: Table, ks: Homes, scope: set<string>, o: RowOp)
    requires Mirrors(store, t, ks, scope) && UniqueIds(t) && o.UpdateRow? && Allowed(t, o)
    ensures var store', t' := Renamed(store, t, ks, o), Exec(t, o);
            forall k :: k in store' && k.0 in scope ==> exists r :: r in t' && r in ks && k == (ks[r], t'[r].id)
  {
    var r, t', store' := o.rowid, Exec(t, o), Renamed(store, t, ks, o);
    forall k | k in store' && k.0 in scope ensures exists q :: q in t' && q in ks && k == (ks[q], t'[q].id) {
      if k == (ks[r], o.id) {
        assert r in t';
      } else {
        var q :| q in t && q in ks && k == (ks[q], t[q].id);
        assert q in t' && q != r;
      }
    }
  }

  /** What a later change of other rows leaves of a row. */
  lemma {:induction false} RowStays(t: Table, ops: seq<RowOp>, n: nat, r: RowId)
    requires n <= |ops| && forall i :: n <= i < |ops| ==> ops[i].rowid != r
    ensures r in ExecAll(t, ops) <==> r in ExecAll(t, ops[..n])
    ensures r in ExecAll(t, ops) ==> ExecAll(t, ops)[r] == ExecAll(t, ops[..n])[r]
  {
    if n < |ops| {
      var front := ops[..|ops| - 1];
      RowStays(t, front, n, r);
      assert front[..n] == ops[..n];
    } else {
      assert ops[..n] == ops;
    }
  }

  lemma CommittedRow(t: Table, ops: seq<RowOp>, c: Class, i: nat)
    requires Statement(t, ops, c) && i < |ops| && !ops[i].DeleteRow?
    ensures ops[i].rowid in ExecAll(t, ops) && ExecAll(t, ops)[ops[i].rowid] == Row(ops[i].id, ops[i].doc)
  {
    RowStays(t, ops, i + 1, ops[i].rowid);
    assert ops[..i + 1][..i] == ops[..i];
  }

  /** A row is changed once, so that its names before the change are those before the statement. */
  lemma FitsBefore(t: Table, ks: Homes, target: Target, ops: seq<RowOp>, c: Class, i: nat)
    requires Statement(t, ops, c) && i < |ops| && OpFits(t, ks, ops[i])
    ensures OpFits(ExecAll(t, ops[..i]), HomesAfter(ks, target, ops[..i]), ops[i])
  {
    RowStays(t, ops[..i], 0, ops[i].rowid);
    assert ops[..i][..0] == [];
    HomeStays(ks, target, ops[..i], ops[i].rowid);
  }

  lemma {:induction false} HomeStays(ks: Homes, target: Target, ops: seq<RowOp>, r: RowId)
    requires forall i :: 0 <= i < |ops| ==> ops[i].rowid != r
    ensures r in HomesAfter(ks, target, ops) <==> r in ks
    ensures r in ks ==> HomesAfter(ks, target, ops)[r] == ks[r]
  {
    if ops != [] { HomeStays(ks, target, ops[..|ops| - 1], r); }
  }

  /** Replaying the first n events takes the store to where the table was after n changes. */
  lemma {:induction false} PrefixSimulates(s: State, target: Target, t: Table, ks: Homes, scope: set<string>, c: Class,
                                           ops: seq<RowOp>, junk: string, n: nat)
    requires Simulates(s, target, t, ks, scope, c) && Statement(t, ops, c) && n <= |ops|
    requires c == Insert ==> !target.pw && target.ks in scope
    requires AllFit(t, ks, ops)
    ensures var s' := ReplayAll(s, Events(ops)[..n], ExecAll(t, ops), target, junk);
            && Simulates(s', target, ExecAll(t, ops[..n]), HomesAfter(ks, target, ops[..n]), scope, c)
            && s'.failed == s.failed && SameOutside(s.store, s'.store, scope)
  {
    if n == 0 {
      assert ops[..0] == [] && Events(ops)[..0] == [];
    } else {
      hide Simulates, OpFits, Allowed, Replay, Exec, ReplayAll, Events, ExecAll, HomesAfter, Statement, SameOutside;
      var k, committed := n - 1, ExecAll(t, ops);
      PrefixSimulates(s, target, t, ks, scope, c, ops, junk, k);
      OneMore(s, target, t, ks, ops, committed, junk, k);
      ChangeIs(t, ops, c, k);
      assert OpFits(t, ks, ops[k]);
      FitsBefore(t, ks, target, ops, c, k);
      var before := ReplayAll(s, Events(ops)[..k], committed, target, junk);
      StepSimulates(before, target, ExecAll(t, ops[..k]), HomesAfter(ks, target, ops[..k]), scope, c, ops[k], committed, junk);
      OutsideOn(s.store, before.store, Replay(before, EventOf(ops[k]), committed, target, junk).store, scope);
    }
  }

  lemma OutsideOn(a: Store, b: Store, c: Store, scope: set<string>)
    requires SameOutside(a, b, scope) && SameOutside(b, c, scope)
    ensures SameOutside(a, c, scope)
  {
  }

  lemma ChangeIs(t: Table, ops: seq<RowOp>, c: Class, k: nat)
    requires Statement(t, ops, c) && k < |ops|
    ensures EventOf(ops[k]).op == c && Allowed(ExecAll(t, ops[..k]), ops[k])
    ensures c != Delete ==> ops[k].rowid in ExecAll(t, ops) && ExecAll(t, ops)[ops[k].rowid] == Row(ops[k].id, ops[k].doc)
  {
    hide ExecAll, Allowed;
    if c != Delete { CommittedRow(t, ops, c, k); }
  }

  lemma OneMore(s: State, target: Target, t: Table, ks: Homes, ops: seq<RowOp>, committed: Table, junk: string, k: nat)
    requires k < |ops|
    ensures ExecAll(t, ops[..k + 1]) == Exec(ExecAll(t, ops[..k]), ops[k])
    ensures HomesAfter(ks, target, ops[..k + 1]) ==
            if ops[k].InsertRow? then HomesAfter(ks, target, ops[..k])[ops[k].rowid := target.ks] else HomesAfter(ks, target, ops[..k])
    ensures ReplayAll(s, Events(ops)[..k + 1], committed, target, junk) ==
            Replay(ReplayAll(s, Events(ops)[..k], committed, target, junk), EventOf(ops[k]), committed, target, junk)
  {
    assert ops[..k + 1][..k] == ops[..k] && Events(ops)[..k + 1][..k] == Events(ops)[..k];
  }

  lemma StepSimulates(s: State, target: Target, t: Table, ks: Homes, scope: set<string>, c: Class, o: RowOp, committed: Table, junk: string)
    requires Simulates(s, target, t, ks, scope, c) && EventOf(o).op == c && Allowed(t, o) && OpFits(t, ks, o)
    requires c == Insert ==> !target.pw && target.ks in scope
    requires c != Delete ==> o.rowid in committed && committed[o.rowid] == Row(o.id, o.doc)
    ensures var s' := Replay(s, EventOf(o), committed, target, junk);
            && Simulates(s', target, Exec(t, o), if o.InsertRow? then ks[o.rowid := target.ks] else ks, scope, c)
            && s'.failed == s.failed && SameOutside(s.store, s'.store, scope)
  {
    hide Simulates, SameOutside, Replay;
    match c
    case Delete => DeleteSimulates(s, target, t, ks, scope, o.rowid, committed, junk);
    case Insert => InsertSimulates(s, target, t, ks, scope, o, committed, junk);
    case Update => UpdateSimulates(s, target, t, ks, scope, o, committed, junk);
  }

  /** Write-back is a simulation: for every statement SQLite lets through, rename chains included, whose changes touch
      only names that fit their buffers, replaying its events turns the store into exactly the final shadow table,
      each record in its own keyspace, with no failure and nothing else touched. */
  lemma WriteBackSimulates(s: State, target: Target, t: Table, ks: Homes, scope: set<string>, c: Class, ops: seq<RowOp>, junk: string)
    requires Simulates(s, target, t, ks, scope, c) && Statement(t, ops, c)
    requires c == Insert ==> !target.pw && target.ks in scope
    requires AllFit(t, ks, ops)
    ensures var s' := ReplayAll(s, Events(ops), ExecAll(t, ops), target, junk);
            && Mirrors(s'.store, ExecAll(t, ops), HomesAfter(ks, target, ops), scope)
            && s'.failed == s.failed && SameOutside(s.store, s'.store, scope)
  {
    PrefixSimulates(s, target, t, ks, scope, c, ops, junk, |ops|);
    assert ops[..|ops|] == ops && Events(ops)[..|ops|] == Events(ops);
  }

  // ---------------------------------------------------------------------------------------------
  // Names that do not fit are lost

  /** A key that no record can hold; an INSERT takes its keyspace from the target. */
  predicate Long(k: Key, c: Class) {
    |k.1| >= 512 || (c != Insert && |k.0| >= 128)
  }

  ghost predicate KeepsLong(a: Store, b: Store, c: Class) {
    forall k: Key :: Long(k, c) ==> (k in a <==> k in b) && (k in a ==> a[k] == b[k])
  }

  lemma LongKept(s: State, target: Target, t: Table, ks: Homes, c: Class, o: RowOp, committed: Table, junk: string)
    requires Tracks(s.records, target, t, ks, c) && EventOf(o).op == c && Allowed(t, o) && (o.rowid in t ==> o.rowid in ks)
    requires c != Delete ==> o.rowid in committed && committed[o.rowid] == Row(o.id, o.doc)
    ensures KeepsLong(s.store, Replay(s, EventOf(o), committed, target, junk).store, c)
  {
    hide Found, Without;
  }

  ghost predicate AtHome(t: Table, ks: Homes) {
    forall r :: r in t ==> r in ks
  }

  lemma LongStep(s: State, target: Target, t: Table, ks: Homes, c: Class, o: RowOp, committed: Table, junk: string)
    requires Tracks(s.records, target, t, ks, c) && EventOf(o).op == c && Allowed(t, o) && AtHome(t, ks)
    requires c != Delete ==> o.rowid in committed && committed[o.rowid] == Row(o.id, o.doc)
    ensures var s', ks' := Replay(s, EventOf(o), committed, target, junk), if o.InsertRow? then ks[o.rowid := target.ks] else ks;
            Tracks(s'.records, target, Exec(t, o), ks', c) && AtHome(Exec(t, o), ks') && KeepsLong(s.store, s'.store, c)
  {
    TracksKept(s, target, t, ks, c, o, committed, junk);
    LongKept(s, target, t, ks, c, o, committed, junk);
  }

  /** Replaying never writes or deletes a key that does not fit. */
  lemma {:induction false} LongKeysStay(s: State, target: Target, t: Table, ks: Homes, c: Class, ops: seq<RowOp>, junk: string, n: nat)
    requires Tracks(s.records, target, t, ks, c) && AtHome(t, ks) && Statement(t, ops, c) && n <= |ops|
    ensures var s' := ReplayAll(s, Events(ops)[..n], ExecAll(t, ops), target, junk);
            && Tracks(s'.records, target, ExecAll(t, ops[..n]), HomesAfter(ks, target, ops[..n]), c)
            && AtHome(ExecAll(t, ops[..n]), HomesAfter(ks, target, ops[..n]))
            && KeepsLong(s.store, s'.store, c)
  {
    if n == 0 {
      assert ops[..0] == [] && Events(ops)[..0] == [];
    } else {
      hide Tracks, AtHome, Allowed, Replay, Exec, Long, ReplayAll, Events, ExecAll, HomesAfter, Statement, KeepsLong;
      var k, committed := n - 1, ExecAll(t, ops);
      LongKeysStay(s, target, t, ks, c, ops, junk, k);
      OneMore(s, target, t, ks, ops, committed, junk, k);
      ChangeIs(t, ops, c, k);
      var before := ReplayAll(s, Events(ops)[..k], committed, target, junk);
      LongStep(before, target, ExecAll(t, ops[..k]), HomesAfter(ks, target, ops[..k]), c, ops[k], committed, junk);
      LongOn(s.store, before.store, Replay(before, EventOf(ops[k]), committed, target, junk).store, c);
    }
  }

  lemma LongOn(a: Store, b: Store, d: Store, c: Class)
    requires KeepsLong(a, b, c) && KeepsLong(b, d, c)
    ensures KeepsLong(a, d, c)
  {
    hide Long;
  }

  /** The same changes to the same rows and ids, with any documents. */
  ghost predicate SameShape(ops: seq<RowOp>, others: seq<RowOp>) {
    |ops| == |others| && forall i :: 0 <= i < |ops| ==> Relabelled(ops[i], others[i])
  }

  predicate Relabelled(o: RowOp, other: RowOp) {
    EventOf(o) == EventOf(other) && (!o.DeleteRow? ==> o.id == other.id)
  }

  ghost predicate SameIds(t: Table, u: Table) {
    t.Keys == u.Keys && forall r :: r in t ==> t[r].id == u[r].id
  }

  lemma {:induction false} ShapeKeepsIds(t: Table, ops: seq<RowOp>, others: seq<RowOp>)
    requires SameShape(ops, others)
    ensures SameIds(ExecAll(t, ops), ExecAll(t, others))
  {
    if ops != [] {
      var n := |ops| - 1;
      assert Relabelled(ops[n], others[n]);
      ShapeKeepsIds(t, ops[..n], others[..n]);
    }
  }

  lemma ShapeKeepsStatement(t: Table, ops: seq<RowOp>, others: seq<RowOp>, c: Class)
    requires SameShape(ops, others) && Statement(t, ops, c)
    ensures Statement(t, others, c)
  {
    forall i | 0 <= i < |ops| ensures EventOf(others[i]).op == c && Allowed(ExecAll(t, others[..i]), others[i]) {
      assert Relabelled(ops[i], others[i]);
      assert SameShape(ops[..i], others[..i]);
      ShapeKeepsIds(t, ops[..i], others[..i]);
    }
    forall i, j | 0 <= i < j < |ops| ensures others[i].rowid != others[j].rowid {
      assert Relabelled(ops[i], others[i]) && Relabelled(ops[j], others[j]);
    }
  }

  lemma ShapeKeepsFit(t: Table, ks: Homes, ops: seq<RowOp>, others: seq<RowOp>)
    requires SameShape(ops, others) && AllFit(t, ks, ops)
    ensures AllFit(t, ks, others)
  {
    forall i | 0 <= i < |ops| ensures OpFits(t, ks, others[i]) {
      assert Relabelled(ops[i], others[i]) && OpFits(t, ks, ops[i]);
    }
  }

  function Marked(ops: seq<RowOp>, doc: Doc): (others: seq<RowOp>)
    ensures SameShape(ops, others)
    ensures forall i :: 0 <= i < |ops| && !others[i].DeleteRow? ==> others[i].doc == doc
  {
    seq(|ops|, i requires 0 <= i < |ops| =>
      match ops[i]
      case InsertRow(r, id, _) => InsertRow(r, id, doc)
      case UpdateRow(r, id, _) => UpdateRow(r, id, doc)
      case DeleteRow(r) => DeleteRow(r))
  }

  lemma {:induction false} NewDoc(t: Table) returns (doc: Doc)
    ensures forall r :: r in t ==> |t[r].doc| < |doc|
    decreases |t|
  {
    doc := "";
    if q :| q in t {
      var rest := t - {q};
      assert rest.Keys == t.Keys - {q};
      doc := NewDoc(rest);
      assert forall r :: r in t && r != q ==> r in rest && rest[r] == t[r];
      if |doc| <= |t[q].doc| { doc := t[q].doc + "."; }
    }
  }

  /** After a statement whose documents are all `doc`, a row is as it was, or it holds that document. */
  lemma OldOrNew(t: Table, ks: Homes, target: Target, ops: seq<RowOp>, c: Class, doc: Doc, q: RowId)
    requires Statement(t, ops, c) && forall i :: 0 <= i < |ops| && !ops[i].DeleteRow? ==> ops[i].doc == doc
    requires q in ExecAll(t, ops) && q in HomesAfter(ks, target, ops)
    ensures || ExecAll(t, ops)[q].doc == doc
            || (q in t && q in ks && t[q] == ExecAll(t, ops)[q] && ks[q] == HomesAfter(ks, target, ops)[q]
                && forall i :: 0 <= i < |ops| ==> ops[i].rowid != q)
  {
    if i :| 0 <= i < |ops| && ops[i].rowid == q {
      if ops[i].DeleteRow? {
        assert ops[..i + 1][..i] == ops[..i];
        RowStays(t, ops, i + 1, q);
      } else {
        CommittedRow(t, ops, c, i);
      }
    } else {
      RowStays(t, ops, 0, q);
      HomeStays(ks, target, ops, q);
      assert ops[..0] == [];
    }
  }

  lemma OldRow(t: Table, ops: seq<RowOp>, c: Class, i: nat)
    requires Statement(t, ops, c) && i < |ops| && !ops[i].InsertRow?
    ensures ops[i].rowid in t
  {
    assert Allowed(ExecAll(t, ops[..i]), ops[i]);
    RowStays(t, ops[..i], 0, ops[i].rowid);
    assert ops[..i][..0] == [];
  }

  lemma {:induction false} InsertedHome(ks: Homes, target: Target, ops: seq<RowOp>, i: nat)
    requires i < |ops| && ops[i].InsertRow?
    ensures ops[i].rowid in HomesAfter(ks, target, ops) && HomesAfter(ks, target, ops)[ops[i].rowid] == target.ks
  {
    if i < |ops| - 1 { InsertedHome(ks, target, ops[..|ops| - 1], i); }
  }

  lemma {:induction false} NoInsertKeepsHomes(ks: Homes, target: Target, ops: seq<RowOp>)
    requires forall i :: 0 <= i < |ops| ==> !ops[i].InsertRow?
    ensures HomesAfter(ks, target, ops) == ks
  {
    if ops != [] { NoInsertKeepsHomes(ks, target, ops[..|ops| - 1]); }
  }

  lemma EveryRowHasItsHome(s: State, target: Target, t: Table, ks: Homes, scope: set<string>, c: Class)
    requires Simulates(s, target, t, ks, scope, c)
    ensures AtHome(t, ks)
  {
  }

  lemma ChangedHome(t: Table, ks: Homes, target: Target, ops: seq<RowOp>, c: Class, i: nat)
    requires Statement(t, ops, c) && AtHome(t, ks) && i < |ops|
    ensures ops[i].rowid in HomesAfter(ks, target, ops)
  {
    if ops[i].InsertRow? {
      InsertedHome(ks, target, ops, i);
    } else {
      assert EventOf(ops[i]).op == c;
      OldRow(t, ops, c, i);
      NoInsertKeepsHomes(ks, target, ops);
    }
  }

  /** A new id that does not fit is not in the store afterwards, or not with the new document. */
  lemma LongNewIdIsMissed(s: State, target: Target, t: Table, ks: Homes, scope: set<string>, c: Class, ops: seq<RowOp>, junk: string, doc: Doc, i: nat)
    requires Simulates(s, target, t, ks, scope, c) && Statement(t, ops, c)
    requires forall r :: r in t ==> t[r].doc != doc
    requires i < |ops| && !ops[i].DeleteRow? && |ops[i].id| >= ID_BUFFER && ops[i].doc == doc
    requires ops[i].rowid in HomesAfter(ks, target, ops)
    ensures !Mirrors(ReplayAll(s, Events(ops), ExecAll(t, ops), target, junk).store, ExecAll(t, ops), HomesAfter(ks, target, ops), scope)
  {
    hide ReplayAll, Events, ExecAll, HomesAfter, Tracks, Statement, Allowed, UniqueIds;
    LongKeysStay(s, target, t, ks, c, ops, junk, |ops|);
    AllOfThem(ops);
    CommittedRow(t, ops, c, i);
    var r, t', ks' := ops[i].rowid, ExecAll(t, ops), HomesAfter(ks, target, ops);
    var s' := ReplayAll(s, Events(ops), t', target, junk);
    var k := (ks'[r], ops[i].id);
    assert Long(k, c);
    if k.0 in scope { NotWithThatDoc(s.store, t, ks, scope, k, doc); }
    assert k in s'.store ==> s'.store[k] == s.store[k];
  }

  lemma NotWithThatDoc(store: Store, t: Table, ks: Homes, scope: set<string>, k: Key, doc: Doc)
    requires Mirrors(store, t, ks, scope) && k.0 in scope && forall r :: r in t ==> t[r].doc != doc
    ensures k in store ==> store[k] != doc
  {
  }

  lemma AllOfThem(ops: seq<RowOp>)
    ensures ops[..|ops|] == ops && Events(ops)[..|ops|] == Events(ops)
  {
  }

  /** An old key that does not fit is still in the store afterwards, with the old document. */
  lemma LongOldNameStays(s: State, target: Target, t: Table, ks: Homes, scope: set<string>, c: Class, ops: seq<RowOp>, junk: string, doc: Doc, i: nat)
    requires Simulates(s, target, t, ks, scope, c) && Statement(t, ops, c)
    requires forall r :: r in t ==> t[r].doc != doc
    requires forall j :: 0 <= j < |ops| && !ops[j].DeleteRow? ==> ops[j].doc == doc
    requires i < |ops| && !ops[i].InsertRow? && !RowFits(t, ks, ops[i].rowid)
    ensures !Mirrors(ReplayAll(s, Events(ops), ExecAll(t, ops), target, junk).store, ExecAll(t, ops), HomesAfter(ks, target, ops), scope)
  {
    hide ReplayAll, Events, ExecAll, HomesAfter, Tracks, Allowed;
    LongKeysStay(s, target, t, ks, c, ops, junk, |ops|);
    AllOfThem(ops);
    var r, t', ks' := ops[i].rowid, ExecAll(t, ops), HomesAfter(ks, target, ops);
    var s' := ReplayAll(s, Events(ops), t', target, junk);
    OldRow(t, ops, c, i);
    var k := (ks[r], t[r].id);
    assert EventOf(ops[i]).op == c && Long(k, c) && k in s'.store && s'.store[k] == t[r].doc;
    forall q | q in t' && q in ks' ensures k != (ks'[q], t'[q].id) || t'[q].doc != t[r].doc {
      OldOrNew(t, ks, target, ops, c, doc, q);
    }
  }

  /** For all documents the statement may write, its replay leaves the final shadow table. */
  ghost predicate WritesBack(s: State, target: Target, t: Table, ks: Homes, scope: set<string>, ops: seq<RowOp>, junk: string) {
    forall others :: SameShape(ops, others) ==>
      Mirrors(ReplayAll(s, Events(others), ExecAll(t, others), target, junk).store, ExecAll(t, others), HomesAfter(ks, target, others), scope)
  }

  /** The condition on names is exact: the rows and ids of a statement are written back rightly, whatever its documents
      are, if and only if the names it touches, old and new, fit their buffers. */
  lemma WritesBackExactly(s: State, target: Target, t: Table, ks: Homes, scope: set<string>, c: Class, ops: seq<RowOp>, junk: string)
    requires Simulates(s, target, t, ks, scope, c) && Statement(t, ops, c)
    requires c == Insert ==> !target.pw && target.ks in scope
    ensures WritesBack(s, target, t, ks, scope, ops, junk) <==> AllFit(t, ks, ops)
  {
    hide Simulates, ReplayAll, ExecAll, Events, HomesAfter, Mirrors, Statement, SameOutside;
    if AllFit(t, ks, ops) {
      forall others | SameShape(ops, others)
        ensures Mirrors(ReplayAll(s, Events(others), ExecAll(t, others), target, junk).store, ExecAll(t, others), HomesAfter(ks, target, others), scope)
      {
        ShapeKeepsStatement(t, ops, others, c);
        ShapeKeepsFit(t, ks, ops, others);
        WriteBackSimulates(s, target, t, ks, scope, c, others, junk);
      }
    } else {
      var i :| 0 <= i < |ops| && !OpFits(t, ks, ops[i]);
      var doc := NewDoc(t);
      var others := Marked(ops, doc);
      assert Relabelled(ops[i], others[i]);
      ShapeKeepsStatement(t, ops, others, c);
      if !others[i].DeleteRow? && |others[i].id| >= ID_BUFFER {
        EveryRowHasItsHome(s, target, t, ks, scope, c);
        ChangedHome(t, ks, target, others, c, i);
        LongNewIdIsMissed(s, target, t, ks, scope, c, others, junk, doc, i);
      } else {
        LongOldNameStays(s, target, t, ks, scope, c, others, junk, doc, i);
      }
    }
  }

  // ---------------------------------------------------------------------------------------------
  // Which ids a statement reports

  /** The ids of one change, as cut: of a deleted row, of a new row, of an updated row, and before that its old id if it
      is another one. */
  function IdsOf(t: Table, o: RowOp): seq<string>
    requires !o.InsertRow? ==> o.rowid in t
  {
    match o
    case DeleteRow(r) => [Clip(t[r].id, ID_BUFFER)]
    case InsertRow(_, id, _) => [Clip(id, ID_BUFFER)]
    case UpdateRow(r, id, _) =>
      (if Clip(t[r].id, ID_BUFFER) != Clip(id, ID_BUFFER) then [Clip(t[r].id, ID_BUFFER)] else []) + [Clip(id, ID_BUFFER)]
  }

  function IdsOfAll(t: Table, ops: seq<RowOp>): seq<string>
    requires forall i :: 0 <= i < |ops| && !ops[i].InsertRow? ==> ops[i].rowid in t
  {
    if ops == [] then [] else IdsOfAll(t, ops[..|ops| - 1]) + IdsOf(t, ops[|ops| - 1])
  }

  lemma StepReports(s: State, target: Target, t: Table, ks: Homes, c: Class, o: RowOp, committed: Table, junk: string)
    requires Tracks(s.records, target, t, ks, c) && EventOf(o).op == c && Allowed(t, o) && AtHome(t, ks)
    requires c != Delete ==> o.rowid in committed && committed[o.rowid] == Row(o.id, o.doc)
    ensures var s' := Replay(s, EventOf(o), committed, target, junk);
            s'.applied == s.applied + IdsOf(t, o) && s'.failed == s.failed
  {
    hide Found, Without;
  }

  lemma {:induction false} PrefixReports(s: State, target: Target, t: Table, ks: Homes, c: Class, ops: seq<RowOp>, junk: string, n: nat)
    requires Tracks(s.records, target, t, ks, c) && AtHome(t, ks) && Statement(t, ops, c) && n <= |ops|
    requires forall i :: 0 <= i < |ops| && !ops[i].InsertRow? ==> ops[i].rowid in t
    ensures var s' := ReplayAll(s, Events(ops)[..n], ExecAll(t, ops), target, junk);
            s'.applied == s.applied + IdsOfAll(t, ops[..n]) && s'.failed == s.failed
  {
    if n == 0 {
      assert ops[..0] == [] && Events(ops)[..0] == [];
    } else {
      hide Tracks, AtHome, Replay, ReplayAll, Events, ExecAll, Statement, IdsOf, IdsOfAll;
      var k, committed := n - 1, ExecAll(t, ops);
      PrefixReports(s, target, t, ks, c, ops, junk, k);
      OneMore(s, target, t, ks, ops, committed, junk, k);
      ChangeReports(s, target, t, ks, c, ops, junk, k);
      IdsOfOneMore(t, ops, k);
      Together(s.applied, IdsOfAll(t, ops[..k]), IdsOf(t, ops[k]));
    }
  }

  lemma ChangeReports(s: State, target: Target, t: Table, ks: Homes, c: Class, ops: seq<RowOp>, junk: string, k: nat)
    requires Tracks(s.records, target, t, ks, c) && AtHome(t, ks) && Statement(t, ops, c) && k < |ops|
    requires !ops[k].InsertRow? ==> ops[k].rowid in t
    ensures var before := ReplayAll(s, Events(ops)[..k], ExecAll(t, ops), target, junk);
            var after := Replay(before, EventOf(ops[k]), ExecAll(t, ops), target, junk);
            after.applied == before.applied + IdsOf(t, ops[k]) && after.failed == before.failed
  {
    hide Tracks, AtHome, Allowed, Replay, ReplayAll, ExecAll, HomesAfter, Statement, IdsOf, KeepsLong;
    var committed := ExecAll(t, ops);
    ChangeIs(t, ops, c, k);
    LongKeysStay(s, target, t, ks, c, ops, junk, k);
    SameIdsBefore(t, ops, c, k);
    StepReports(ReplayAll(s, Events(ops)[..k], committed, target, junk), target, ExecAll(t, ops[..k]),
                HomesAfter(ks, target, ops[..k]), c, ops[k], committed, junk);
  }

  lemma IdsOfOneMore(t: Table, ops: seq<RowOp>, k: nat)
    requires k < |ops| && forall i :: 0 <= i < |ops| && !ops[i].InsertRow? ==> ops[i].rowid in t
    ensures IdsOfAll(t, ops[..k + 1]) == IdsOfAll(t, ops[..k]) + IdsOf(t, ops[k])
  {
    hide IdsOf;
    assert ops[..k + 1][..k] == ops[..k];
  }

  lemma Together<T>(a: seq<T>, b: seq<T>, c: seq<T>)
    ensures a + b + c == a + (b + c)
  {
  }

  lemma SameIdsBefore(t: Table, ops: seq<RowOp>, c: Class, k: nat)
    requires Statement(t, ops, c) && k < |ops| && (!ops[k].InsertRow? ==> ops[k].rowid in t)
    ensures !ops[k].InsertRow? ==> ops[k].rowid in ExecAll(t, ops[..k])
    ensures IdsOf(ExecAll(t, ops[..k]), ops[k]) == IdsOf(t, ops[k])
  {
    if !ops[k].InsertRow? {
      RowStays(t, ops[..k], 0, ops[k].rowid);
      assert ops[..k][..0] == [];
    }
  }

  /** A statement reports exactly the ids of the rows it touched, in the order in which it touched them, and no failure,
      whether names fit their buffers or not. */
  lemma StatementReports(s: State, target: Target, t: Table, ks: Homes, scope: set<string>, c: Class, ops: seq<RowOp>, junk: string)
    requires Simulates(s, target, t, ks, scope, c) && Statement(t, ops, c)
    ensures forall i :: 0 <= i < |ops| && !ops[i].InsertRow? ==> ops[i].rowid in t
    ensures var s' := ReplayAll(s, Events(ops), ExecAll(t, ops), target, junk);
            s'.applied == s.applied + IdsOfAll(t, ops) && s'.failed == s.failed
  {
    forall i | 0 <= i < |ops| && !ops[i].InsertRow? ensures ops[i].rowid in t { OldRow(t, ops, c, i); }
    EveryRowHasItsHome(s, target, t, ks, scope, c);
    PrefixReports(s, target, t, ks, c, ops, junk, |ops|);
    AllOfThem(ops);
  }

  // ---------------------------------------------------------------------------------------------
  // Where the shadow table comes from

  /** A document as fetched: its id, its keyspace, its content. */
  datatype Fetched = Fetched(id: string, ks: string, doc: Doc)

  /** INSERT OR REPLACE with the next row id: a row of the same id gives way. */
  function Put(t: Table, rowid: RowId, id: string, doc: Doc): Table {
    (map r | r in t && t[r].id != id :: t[r])[rowid := Row(id, doc)]
  }

  function TableOf(docs: seq<Fetched>): Table {
    if docs == [] then map[]
    else Put(TableOf(docs[..|docs| - 1]), |docs|, docs[|docs| - 1].id, docs[|docs| - 1].doc)
  }

  function RecordsOf(t: nat, docs: seq<Fetched>): seq<Record> {
    seq(|docs|, i requires 0 <= i < |docs| => NewRecord(t, i + 1, docs[i].id, docs[i].ks))
  }

  function HomesOf(docs: seq<Fetched>): Homes {
    map r | r in TableOf(docs) && 1 <= r <= |docs| :: docs[r - 1].ks
  }

  method Materialize(t: nat, docs: seq<Fetched>) returns (table: Table, records: seq<Record>)
    ensures table == TableOf(docs) && records == RecordsOf(t, docs)
  {
    table, records := map[], [];
    for i := 0 to |docs|
      invariant table == TableOf(docs[..i]) && records == RecordsOf(t, docs[..i])
    {
      assert docs[..i + 1][..i] == docs[..i];
      table := Put(table, i + 1, docs[i].id, docs[i].doc);
      records := records + [Record(t, i + 1, Clip(docs[i].id, ID_BUFFER), Clip(docs[i].ks, KS_BUFFER))];
    }
    assert docs[..|docs|] == docs;
  }

  lemma {:induction false} TableRows(docs: seq<Fetched>)
    ensures UniqueIds(TableOf(docs))
    ensures forall r :: r in TableOf(docs) ==> 1 <= r <= |docs| && TableOf(docs)[r] == Row(docs[r - 1].id, docs[r - 1].doc)
    ensures forall r :: 1 <= r <= |docs| && (forall j :: r <= j < |docs| ==> docs[j].id != docs[r - 1].id) ==> r in TableOf(docs)
  {
    if docs != [] {
      var n := |docs| - 1;
      TableRows(docs[..n]);
      forall r | 1 <= r <= |docs| && (forall j :: r <= j < |docs| ==> docs[j].id != docs[r - 1].id) ensures r in TableOf(docs) {
        if r <= n {
          assert docs[..n][r - 1] == docs[r - 1] && docs[n].id != docs[r - 1].id;
          assert r in TableOf(docs[..n]);
        }
      }
    }
  }

  /** The fetched documents are exactly what the store holds in scope. */
  ghost predicate Fetches(docs: seq<Fetched>, store: Store, scope: set<string>) {
    && (forall i :: 0 <= i < |docs| ==> docs[i].ks in scope && (docs[i].ks, docs[i].id) in store
                                        && store[(docs[i].ks, docs[i].id)] == docs[i].doc)
    && (forall k :: k in store && k.0 in scope ==> exists i :: 0 <= i < |docs| && k == (docs[i].ks, docs[i].id))
    && (forall i, j :: 0 <= i < j < |docs| ==> (docs[i].ks, docs[i].id) != (docs[j].ks, docs[j].id))
  }

  ghost predicate UniqueDocs(docs: seq<Fetched>) {
    forall i, j :: 0 <= i < j < |docs| ==> docs[i].id != docs[j].id
  }

  lemma UniqueRows(docs: seq<Fetched>)
    requires UniqueDocs(docs)
    ensures forall r :: 1 <= r <= |docs| ==> r in TableOf(docs) && r in HomesOf(docs) && HomesOf(docs)[r] == docs[r - 1].ks
    ensures forall r :: r in TableOf(docs) ==> 1 <= r <= |docs| && TableOf(docs)[r] == Row(docs[r - 1].id, docs[r - 1].doc)
  {
    hide TableOf;
    TableRows(docs);
  }

  lemma UniqueDocsMirror(docs: seq<Fetched>, store: Store, scope: set<string>)
    requires Fetches(docs, store, scope) && UniqueDocs(docs)
    ensures Mirrors(store, TableOf(docs), HomesOf(docs), scope)
  {
    hide TableOf, HomesOf;
    UniqueRows(docs);
    var t, ks := TableOf(docs), HomesOf(docs);
    forall k | k in store && k.0 in scope ensures exists r :: r in t && r in ks && k == (ks[r], t[r].id) {
      var i :| 0 <= i < |docs| && k == (docs[i].ks, docs[i].id);
      assert i + 1 in t && i + 1 in ks;
    }
  }

  lemma MirroredIdsAreUnique(store: Store, t: Table, ks: Homes, scope: set<string>, a: (string, string), b: (string, string))
    requires Mirrors(store, t, ks, scope)
    requires UniqueIds(t)
    requires a in store && b in store && a.0 in scope && b.0 in scope && a.1 == b.1
    ensures a == b
  {
    var r :| r in t && r in ks && a == (ks[r], t[r].id);
    var q :| q in t && q in ks && b == (ks[q], t[q].id);
    assert r == q;
  }

  lemma DuplicateHides(docs: seq<Fetched>, store: Store, scope: set<string>, i: nat, j: nat)
    requires Fetches(docs, store, scope) && i < j < |docs| && docs[i].id == docs[j].id
    ensures !Mirrors(store, TableOf(docs), HomesOf(docs), scope)
  {
    TableRows(docs);
    if Mirrors(store, TableOf(docs), HomesOf(docs), scope) {
      MirroredIdsAreUnique(store, TableOf(docs), HomesOf(docs), scope, (docs[i].ks, docs[i].id), (docs[j].ks, docs[j].id));
    }
  }

  /** The shadow table shows the store faithfully exactly when no id occurs in two merged keyspaces. */
  lemma MaterializedMirrors(docs: seq<Fetched>, store: Store, scope: set<string>)
    requires Fetches(docs, store, scope)
    ensures Mirrors(store, TableOf(docs), HomesOf(docs), scope) <==> UniqueDocs(docs)
  {
    if UniqueDocs(docs) {
      UniqueDocsMirror(docs, store, scope);
    } else {
      var i, j :| 0 <= i < j < |docs| && docs[i].id == docs[j].id;
      DuplicateHides(docs, store, scope, i, j);
    }
  }

  lemma RecordOfRow(t: nat, docs: seq<Fetched>, r: RowId)
    ensures Found(RecordsOf(t, docs), t, r) ==
            if 1 <= r <= |docs| then Some(NewRecord(t, r, docs[r - 1].id, docs[r - 1].ks)) else None
  {
    var rs := RecordsOf(t, docs);
    if 1 <= r <= |docs| { FindIsLast(rs, t, r, r - 1); }
  }

  /** The row map starts out knowing every row. */
  lemma MaterializedTracks(target: Target, docs: seq<Fetched>, c: Class)
    requires UniqueDocs(docs)
    ensures Tracks(RecordsOf(target.t, docs), target, TableOf(docs), HomesOf(docs), c)
  {
    hide TableOf, RecordsOf;
    UniqueRows(docs);
    forall r ensures Found(RecordsOf(target.t, docs), target.t, r) ==
                     if 1 <= r <= |docs| then Some(NewRecord(target.t, r, docs[r - 1].id, docs[r - 1].ks)) else None
    {
      RecordOfRow(target.t, docs, r);
    }
  }

  /** From fetching to write-back, for every statement over documents whose ids are unique: it is written back rightly,
      whatever documents it writes, if and only if the names it touches fit; and then nothing fails and nothing outside
      its keyspaces changes. */
  lemma StatementRoundTrip(target: Target, docs: seq<Fetched>, store: Store, scope: set<string>, c: Class, ops: seq<RowOp>, junk: string)
    requires Fetches(docs, store, scope) && UniqueDocs(docs)
    requires Statement(TableOf(docs), ops, c)
    requires c == Insert ==> !target.pw && target.ks in scope
    ensures WritesBack(State(RecordsOf(target.t, docs), store, [], []), target, TableOf(docs), HomesOf(docs), scope, ops, junk)
            <==> AllFit(TableOf(docs), HomesOf(docs), ops)
    ensures AllFit(TableOf(docs), HomesOf(docs), ops) ==>
              var committed := ExecAll(TableOf(docs), ops);
              var s' := ReplayAll(State(RecordsOf(target.t, docs), store, [], []), Events(ops), committed, target, junk);
              && Mirrors(s'.store, committed, HomesAfter(HomesOf(docs), target, ops), scope)
              && s'.failed == [] && SameOutside(store, s'.store, scope)
  {
    hide Mirrors, TableOf, HomesOf, RecordsOf, ReplayAll, ExecAll, WritesBack, AllFit, Statement, Tracks, UniqueIds;
    MaterializedMirrors(docs, store, scope);
    MaterializedTracks(target, docs, c);
    TableRows(docs);
    var s := State(RecordsOf(target.t, docs), store, [], []);
    WritesBackExactly(s, target, TableOf(docs), HomesOf(docs), scope, c, ops, junk);
    if AllFit(TableOf(docs), HomesOf(docs), ops) {
      WriteBackSimulates(s, target, TableOf(docs), HomesOf(docs), scope, c, ops, junk);
    }
  }
}
