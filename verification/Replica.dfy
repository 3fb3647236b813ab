/** One replica of a shard (src/engine/shard.c): last-write-wins puts and deletes,
    tombstones, the cleanup pass, and the convergence of replicas. */
module Replica {
  import opened Strings

  const CLEANUP_GRACE_SECONDS := 7200
  const TOMBSTONE_BACKDATE := 5
  const ORIGIN_BUFFER: nat := 64
  const VACUUM_THRESHOLD := 10000

  /** A row of the Data table; None is SQL NULL. */
  datatype Row = Row(value: Option<string>, ttl: Option<int>, ts: Option<int>, origin: Option<string>)

  type Table = map<string, Row>

  datatype Op = Put(value: string, ttl: int) | Delete

  /** A replicated change to the row `id`. */
  datatype Change = Change(id: string, op: Op, ts: int, origin: string)

  /** The row a change stores when it is applied. */
  function RowOf(c: Change): Row {
    match c.op
    case Put(v, ttl) => Row(Some(v), if ttl >= 0 then Some(ttl) else None, Some(c.ts), Some(c.origin))
    case Delete => Row(None, Some(c.ts - TOMBSTONE_BACKDATE), Some(c.ts), Some(c.origin))
  }

  function OriginOf(r: Row): string {
    match r.origin case None => "" case Some(o) => o
  }

  function Lookup(t: Table, id: string): Option<Row> {
    if id in t then Some(t[id]) else None
  }

  /** The stored row makes the change a no-op; the stored origin is read through a 64-byte buffer. */
  predicate Skips(stored: Option<Row>, c: Change) {
    && stored.Some? && stored.value.ts.Some?
    && (stored.value.ts.value > c.ts
        || (stored.value.ts.value == c.ts && Less(c.origin, Clip(OriginOf(stored.value), ORIGIN_BUFFER))))
  }

  function ApplyCell(cell: Option<Row>, c: Change): Option<Row> {
    if Skips(cell, c) then cell else Some(RowOf(c))
  }

  function Apply(t: Table, c: Change): Table {
    if Skips(Lookup(t, c.id), c) then t else t[c.id := RowOf(c)]
  }

  predicate Expired(r: Row, now: int) {
    r.ttl.Some? && r.ttl.value < now - CLEANUP_GRACE_SECONDS
  }

  function Clean(t: Table, now: int): Table {
    map id | id in t && !Expired(t[id], now) :: t[id]
  }

  predicate Live(r: Row, now: int) {
    r.ttl.None? || r.ttl.value >= now
  }

  /** What a reader sees: the document text and its timestamp, when the row is live and not a tombstone. */
  function ViewCell(cell: Option<Row>, now: int): Option<(string, Option<int>)> {
    if cell.Some? && Live(cell.value, now) && cell.value.value.Some? && cell.value.value.value != ""
    then Some((cell.value.value.value, cell.value.ts))
    else None
  }

  function View(t: Table, id: string, now: int): Option<(string, Option<int>)> {
    ViewCell(Lookup(t, id), now)
  }

  /** An open shard handle; SQLite is the map `data`, and its statements succeed. */
  class Shard {
    var data: Table
    var expiredSinceVacuum: int

    constructor ()
      ensures data == map[] && expiredSinceVacuum == 0
    {
      data, expiredSinceVacuum := map[], 0;
    }

    method StoredVersion(id: string) returns (found: bool, ts: int, origin: string)
      ensures found <==> id in data && data[id].ts.Some?
      ensures found ==> ts == data[id].ts.value && origin == Clip(OriginOf(data[id]), ORIGIN_BUFFER)
    {
      found, ts, origin := false, 0, "";
      if id !in data || data[id].ts.None? {
        return;
      }
      found, ts, origin := true, data[id].ts.value, Clip(OriginOf(data[id]), ORIGIN_BUFFER);
    }

    method DoPut(id: string, value: string, ttlAbsolute: int, ts: int, origin: string)
      modifies this`data
      ensures data == old(data)[id := RowOf(Change(id, Put(value, ttlAbsolute), ts, origin))]
    {
      var ttl := None;
      if ttlAbsolute >= 0 {
        ttl := Some(ttlAbsolute);
      }
      data := data[id := Row(Some(value), ttl, Some(ts), Some(origin))];
    }

    method ReplicaPut(id: string, value: string, ttlAbsolute: int, ts: int, origin: string)
      modifies this`data
      ensures data == Apply(old(data), Change(id, Put(value, ttlAbsolute), ts, origin))
    {
      var found, storedTs, storedOrigin := StoredVersion(id);
      if found && (storedTs > ts || (storedTs == ts && Less(origin, storedOrigin))) {
        return;
      }
      DoPut(id, value, ttlAbsolute, ts, origin);
    }

    method ReplicaDelete(id: string, ts: int, origin: string)
      modifies this`data
      ensures data == Apply(old(data), Change(id, Delete, ts, origin))
    {
      var found, storedTs, storedOrigin := StoredVersion(id);
      if found && (storedTs > ts || (storedTs == ts && Less(origin, storedOrigin))) {
        return;
      }
      data := data[id := Row(None, Some(ts - TOMBSTONE_BACKDATE), Some(ts), Some(origin))];
    }

    method GetTs(id: string, now: int) returns (doc: Option<(string, Option<int>)>)
      ensures doc == View(data, id, now)
    {
      doc := None;
      if id in data && (data[id].ttl.None? || data[id].ttl.value >= now) {
        match data[id].value
        case Some(json) =>
          if |json| > 0 {
            doc := Some((json, data[id].ts));
          }
        case None =>
      }
    }

    /** The local, unconditional write path: what was written is read back until it expires. */
    method PutLocal(id: string, value: string, ttlSeconds: int, now: nat)
      modifies this`data
      ensures data.Keys == old(data).Keys + {id}
      ensures forall k :: k in old(data) && k != id ==> data[k] == old(data)[k]
      ensures forall t :: View(data, id, t) ==
                          if value != "" && (ttlSeconds < 0 || t <= now + ttlSeconds)
                          then Some((value, Some(now))) else None
    {
      var absolute := if ttlSeconds >= 0 then now + ttlSeconds else -1;
      DoPut(id, value, absolute, now, "");
    }

    /** The local soft delete touches only an existing row and leaves its value and origin in place. */
    method DeleteLocal(id: string, now: int)
      modifies this`data
      ensures data.Keys == old(data).Keys
      ensures forall k :: k in old(data) && k != id ==> data[k] == old(data)[k]
      ensures id in data ==> data[id] == old(data)[id].(ttl := Some(now - TOMBSTONE_BACKDATE), ts := Some(now))
      ensures forall t :: t >= now ==> View(data, id, t) == None
    {
      if id in data {
        data := data[id := data[id].(ttl := Some(now - TOMBSTONE_BACKDATE), ts := Some(now))];
      }
    }

    method Cleanup(now: int, vacuumSucceeds: bool)
      modifies this
      ensures data == Clean(old(data), now)
      ensures var n := old(expiredSinceVacuum) + |old(data)| - |data|;
              expiredSinceVacuum == if n >= 10000 && vacuumSucceeds then 0 else n
    {
      var kept := map id | id in data && !Expired(data[id], now) :: data[id];
      expiredSinceVacuum := expiredSinceVacuum + (|data| - |kept|);
      data := kept;
      if expiredSinceVacuum >= VACUUM_THRESHOLD && vacuumSucceeds {
        expiredSinceVacuum := 0;
      }
    }
  }

  /** Of two versions of one second the smaller origin is skipped, wherever the first difference is, and the greater one
      or an equal one overwrites; otherwise the earlier timestamp is skipped. */
  lemma SkipsExactly(stored: Row, c: Change)
    requires stored.ts.Some? && |OriginOf(stored)| < 64
    ensures Skips(Some(stored), c) <==>
              c.ts < stored.ts.value || (c.ts == stored.ts.value && exists k: nat :: SmallerAt(c.origin, OriginOf(stored), k))
  {
    LessExactly(c.origin, OriginOf(stored));
  }

  // ---------------------------------------------------------------------------------------------
  // The winning row: the greatest version, stated without reference to any order of arrival

  /** Row a carries a strictly greater (timestamp, origin) than row b; no timestamp is the least. */
  predicate Newer(a: Row, b: Row) {
    && a.ts.Some?
    && (b.ts.None? || a.ts.value > b.ts.value
        || (a.ts.value == b.ts.value && Less(OriginOf(b), OriginOf(a))))
  }

  /** One of the changes, and neither another nor the initial row is newer than the row it stores. */
  ghost predicate Top(c: Change, init: Option<Row>, cs: set<Change>) {
    && c in cs
    && (forall d :: d in cs ==> !Newer(RowOf(d), RowOf(c)))
    && (init.Some? ==> !Newer(init.value, RowOf(c)))
  }

  /** `r` is the row of a change that none surpasses, or the initial row where that is newer than all the changes. */
  ghost predicate Latest(r: Option<Row>, init: Option<Row>, cs: set<Change>) {
    || (exists c :: Top(c, init, cs) && r == Some(RowOf(c)))
    || (r == init && forall c :: c in cs ==> init.Some? && Newer(init.value, RowOf(c)))
  }

  /** Changes that tie for the greatest version store the same row. */
  ghost predicate TiesAgree(init: Option<Row>, cs: set<Change>) {
    forall c, d :: Top(c, init, cs) && Top(d, init, cs) ==> RowOf(c) == RowOf(d)
  }

  /** Or rows that at least look the same to a reader. */
  ghost predicate TiesLookAlike(init: Option<Row>, cs: set<Change>, now: int) {
    forall c, d :: Top(c, init, cs) && Top(d, init, cs) ==> ViewCell(Some(RowOf(c)), now) == ViewCell(Some(RowOf(d)), now)
  }

  /** No two different contents carry the same version of a row. */
  ghost predicate DistinctVersions(cs: set<Change>) {
    forall c, d :: c in cs && d in cs && c.ts == d.ts && c.origin == d.origin ==> RowOf(c) == RowOf(d)
  }

  /** Every origin fits the buffer the stored origin is read through. */
  predicate Fits(init: Option<Row>, cs: set<Change>, width: nat) {
    && (init.Some? ==> |OriginOf(init.value)| <= width)
    && (forall c :: c in cs ==> |c.origin| <= width)
  }

  lemma NotNewerIsTransitive(a: Row, b: Row, c: Row)
    requires !Newer(a, b) && !Newer(b, c)
    ensures !Newer(a, c)
  {
    if Newer(a, c) {
      var x, y, z := OriginOf(a), OriginOf(b), OriginOf(c);
      LessIsTotal(x, y);
      LessIsTotal(y, z);
      if Less(z, x) && Less(x, y) {
        LessIsTransitive(z, x, y);
      }
      if Less(y, z) && Less(z, x) {
        LessIsTransitive(y, z, x);
      }
      if Less(x, y) && Less(y, z) { LessIsTransitive(x, y, z); LessIsAsymmetric(x, z); }
    }
  }

  lemma NewerIsAsymmetric(a: Row, b: Row)
    requires Newer(a, b)
    ensures !Newer(b, a)
  {
    if Less(OriginOf(b), OriginOf(a)) { LessIsAsymmetric(OriginOf(b), OriginOf(a)); }
  }

  /** Where every version has one content, no tie can matter. */
  lemma DistinctVersionsAgree(init: Option<Row>, cs: set<Change>)
    requires DistinctVersions(cs)
    ensures TiesAgree(init, cs)
  {
    forall c, d | Top(c, init, cs) && Top(d, init, cs) ensures RowOf(c) == RowOf(d) {
      LessIsTotal(c.origin, d.origin);
      assert OriginOf(RowOf(c)) == c.origin && OriginOf(RowOf(d)) == d.origin;
    }
  }

  lemma LatestIsUnique(r: Option<Row>, q: Option<Row>, init: Option<Row>, cs: set<Change>)
    requires Latest(r, init, cs) && Latest(q, init, cs) && TiesAgree(init, cs)
    ensures r == q
  {
    hide Newer;
    if c :| Top(c, init, cs) && r == Some(RowOf(c)) {
      assert c in cs;
    }
  }

  lemma LatestLooksTheSame(r: Option<Row>, q: Option<Row>, init: Option<Row>, cs: set<Change>, now: int)
    requires Latest(r, init, cs) && Latest(q, init, cs) && TiesLookAlike(init, cs, now)
    ensures ViewCell(r, now) == ViewCell(q, now)
  {
    hide Newer, ViewCell;
    if c :| Top(c, init, cs) && r == Some(RowOf(c)) {
      assert c in cs;
    }
  }

  lemma SkipsForNewer(r: Row, c: Change)
    requires |OriginOf(r)| < ORIGIN_BUFFER
    ensures Skips(Some(r), c) <==> Newer(r, RowOf(c))
  {
    assert OriginOf(RowOf(c)) == c.origin;
  }

  lemma ApplyKeepsLatest(r: Option<Row>, init: Option<Row>, cs: set<Change>, c: Change)
    requires Latest(r, init, cs)
    requires r.Some? ==> |OriginOf(r.value)| < ORIGIN_BUFFER
    ensures Latest(ApplyCell(r, c), init, cs + {c})
  {
    hide Newer, RowOf, ViewCell;
    var more := cs + {c};
    if r.Some? { SkipsForNewer(r.value, c); }
    if Skips(r, c) {
      NewerIsAsymmetric(r.value, RowOf(c));
      if e :| Top(e, init, cs) && r == Some(RowOf(e)) {
        assert Top(e, init, more);
      }
    } else {
      NotNewerThanItself(RowOf(c));
      if r.Some? {
        forall x | !Newer(x, r.value) ensures !Newer(x, RowOf(c)) {
          NotNewerIsTransitive(x, r.value, RowOf(c));
        }
        forall d | d in cs ensures !Newer(RowOf(d), r.value) {
          if Newer(r.value, RowOf(d)) { NewerIsAsymmetric(r.value, RowOf(d)); }
        }
      }
      assert Top(c, init, more);
    }
  }

  lemma NotNewerThanItself(r: Row)
    ensures !Newer(r, r)
  {
    if Less(OriginOf(r), OriginOf(r)) { LessIsAsymmetric(OriginOf(r), OriginOf(r)); }
  }

  function ApplyAll(t: Table, cs: seq<Change>): Table {
    if cs == [] then t else Apply(ApplyAll(t, cs[..|cs| - 1]), cs[|cs| - 1])
  }

  function ChangesOf(cs: seq<Change>, id: string): set<Change> {
    set c | c in cs && c.id == id
  }

  lemma WinnerFits(r: Option<Row>, init: Option<Row>, cs: set<Change>)
    requires Latest(r, init, cs) && Fits(init, cs, ORIGIN_BUFFER - 1)
    ensures r.Some? ==> |OriginOf(r.value)| < ORIGIN_BUFFER
  {
  }

  /** Applying changes one after the other leaves, for each id, the row of the greatest version. */
  lemma {:induction false} ApplyAllLeavesLatest(t: Table, cs: seq<Change>, id: string)
    requires Fits(Lookup(t, id), ChangesOf(cs, id), ORIGIN_BUFFER - 1)
    ensures Latest(Lookup(ApplyAll(t, cs), id), Lookup(t, id), ChangesOf(cs, id))
  {
    var init := Lookup(t, id);
    if cs != [] {
      hide Latest;
      var front, c := cs[..|cs| - 1], cs[|cs| - 1];
      assert cs == front + [c];
      ApplyAllLeavesLatest(t, front, id);
      if c.id == id {
        assert ChangesOf(cs, id) == ChangesOf(front, id) + {c};
        WinnerFits(Lookup(ApplyAll(t, front), id), init, ChangesOf(front, id));
        ApplyKeepsLatest(Lookup(ApplyAll(t, front), id), init, ChangesOf(front, id), c);
      } else {
        assert ChangesOf(cs, id) == ChangesOf(front, id);
      }
    }
  }

  /** Where ties agree, order and repetition do not matter: the same set of changes leaves the same table. */
  lemma OrderDoesNotMatter(t: Table, cs: seq<Change>, ds: seq<Change>)
    requires forall c :: c in cs <==> c in ds
    requires forall id :: TiesAgree(Lookup(t, id), ChangesOf(cs, id))
    requires forall id :: Fits(Lookup(t, id), ChangesOf(cs, id), ORIGIN_BUFFER - 1)
    ensures ApplyAll(t, cs) == ApplyAll(t, ds)
  {
    var a, b := ApplyAll(t, cs), ApplyAll(t, ds);
    forall id ensures Lookup(a, id) == Lookup(b, id) {
      assert ChangesOf(cs, id) == ChangesOf(ds, id);
      ApplyAllLeavesLatest(t, cs, id);
      ApplyAllLeavesLatest(t, ds, id);
      LatestIsUnique(Lookup(a, id), Lookup(b, id), Lookup(t, id), ChangesOf(cs, id));
    }
    SameLookups(a, b);
  }

  /** A change that none surpasses wins when it comes last, whatever came before. */
  lemma LastTopWins(t: Table, cs: seq<Change>, id: string, c: Change)
    requires Fits(Lookup(t, id), ChangesOf(cs, id), ORIGIN_BUFFER - 1)
    requires Top(c, Lookup(t, id), ChangesOf(cs, id))
    ensures Lookup(ApplyAll(t, cs + [c]), id) == Some(RowOf(c))
    ensures forall x :: x in cs + [c] <==> x in cs
  {
    hide Newer;
    assert (cs + [c])[..|cs|] == cs;
    var r := Lookup(ApplyAll(t, cs), id);
    ApplyAllLeavesLatest(t, cs, id);
    WinnerFits(r, Lookup(t, id), ChangesOf(cs, id));
    if r.Some? { SkipsForNewer(r.value, c); }
  }

  ghost predicate OrderIsFree(t: Table, cs: seq<Change>) {
    forall ds: seq<Change> :: (forall c :: c in cs <==> c in ds) ==> ApplyAll(t, ds) == ApplyAll(t, cs)
  }

  ghost predicate AllTiesAgree(t: Table, cs: seq<Change>) {
    forall id :: TiesAgree(Lookup(t, id), ChangesOf(cs, id))
  }

  /** Ties are the only obstacle: any two orders of a set of changes leave the same table if and only if, row by row,
      the changes that tie for the greatest version store the same row. */
  lemma OrderDoesNotMatterExactly(t: Table, cs: seq<Change>)
    requires forall id :: Fits(Lookup(t, id), ChangesOf(cs, id), ORIGIN_BUFFER - 1)
    ensures OrderIsFree(t, cs) <==> AllTiesAgree(t, cs)
  {
    hide Top, Fits, ApplyAll;
    if AllTiesAgree(t, cs) {
      forall ds: seq<Change> | forall c :: c in cs <==> c in ds ensures ApplyAll(t, ds) == ApplyAll(t, cs) {
        OrderDoesNotMatter(t, cs, ds);
      }
    }
    if OrderIsFree(t, cs) {
      forall id ensures TiesAgree(Lookup(t, id), ChangesOf(cs, id)) {
        forall c, d | Top(c, Lookup(t, id), ChangesOf(cs, id)) && Top(d, Lookup(t, id), ChangesOf(cs, id))
          ensures RowOf(c) == RowOf(d)
        {
          LastTopWins(t, cs, id, c);
          LastTopWins(t, cs, id, d);
          assert ApplyAll(t, cs + [c]) == ApplyAll(t, cs) == ApplyAll(t, cs + [d]);
        }
      }
    }
  }

  lemma SameLookups(a: Table, b: Table)
    requires forall id :: Lookup(a, id) == Lookup(b, id)
    ensures a == b
  {
    forall id ensures id in a <==> id in b {
      assert Lookup(a, id) == Lookup(b, id);
    }
    forall id | id in a ensures a[id] == b[id] {
      assert Lookup(a, id) == Lookup(b, id);
    }
  }

  // ---------------------------------------------------------------------------------------------
  // Whole runs of one replica: deliveries and cleanup passes on a shared clock

  datatype Event = Deliver(at: int, change: Change) | Cleanup(at: int)

  function Step(t: Table, e: Event): Table {
    match e
    case Deliver(_, c) => Apply(t, c)
    case Cleanup(now) => Clean(t, now)
  }

  function Run(t: Table, es: seq<Event>): Table {
    if es == [] then t else Step(Run(t, es[..|es| - 1]), es[|es| - 1])
  }

  /** The changes of a run in order of arrival. */
  function Arrivals(es: seq<Event>): seq<Change> {
    if es == [] then []
    else Arrivals(es[..|es| - 1]) + (if es[|es| - 1].Deliver? then [es[|es| - 1].change] else [])
  }

  /** The clock never goes back and every step is over by `now`. */
  predicate Clocked(es: seq<Event>, now: int) {
    && (forall i, j :: 0 <= i < j < |es| ==> es[i].at <= es[j].at)
    && (forall i :: 0 <= i < |es| ==> es[i].at <= now)
  }

  /** Every change arrives at most `lag` seconds after its timestamp. */
  predicate Timely(es: seq<Event>, lag: int) {
    forall i :: 0 <= i < |es| && es[i].Deliver? ==> es[i].at <= es[i].change.ts + lag
  }

  /** A put either never expires or expires no earlier than `slack` seconds after its timestamp. */
  predicate PutOk(c: Change, slack: int) {
    c.op.Put? && c.op.ttl >= 0 ==> c.op.ttl >= c.ts + slack
  }

  /** The same for a row that was there before: a tombstone, or a row some such put left. */
  predicate RowOk(r: Row, slack: int) {
    r.ttl.Some? && r.ts.Some? ==>
      r.ttl.value >= r.ts.value + slack || r.ttl.value >= r.ts.value - TOMBSTONE_BACKDATE
  }

  /** Two replicas that started from the same table and have received the same changes. */
  ghost predicate SameDeliveries(t: Table, a: seq<Event>, b: seq<Event>, now: int, lag: int, slack: int, width: nat) {
    && Clocked(a, now) && Clocked(b, now)
    && Timely(a, lag) && Timely(b, lag)
    && (forall c :: c in Arrivals(a) <==> c in Arrivals(b))
    && (forall c :: c in Arrivals(a) ==> PutOk(c, slack))
    && (forall id :: id in t ==> RowOk(t[id], slack))
    && (forall id :: Fits(Lookup(t, id), ChangesOf(Arrivals(a), id), width))
  }

  /** Among which those that tie for the greatest version look alike. */
  ghost predicate Comparable(t: Table, a: seq<Event>, b: seq<Event>, now: int, lag: int, slack: int, width: nat) {
    SameDeliveries(t, a, b, now, lag, slack, width) && NoTieShows(t, a, now)
  }

  ghost predicate NoTieShows(t: Table, es: seq<Event>, now: int) {
    forall id :: TiesLookAlike(Lookup(t, id), ChangesOf(Arrivals(es), id), now)
  }

  /** With these bounds on delay, expiry and origin length, any two such replicas answer every read alike. */
  ghost predicate Converges(lag: int, slack: int, width: nat) {
    forall t, a, b, now, id :: Comparable(t, a, b, now, lag, slack, width)
                               ==> View(Run(t, a), id, now) == View(Run(t, b), id, now)
  }

  predicate GoodBounds(lag: int, slack: int, width: nat) {
    && lag <= CLEANUP_GRACE_SECONDS - TOMBSTONE_BACKDATE
    && lag <= CLEANUP_GRACE_SECONDS + slack
    && width < ORIGIN_BUFFER
  }

  /** In numbers: two hours less five seconds, two hours more than a put lives, and 63 characters. */
  lemma BoundsInNumbers(lag: int, slack: int, width: nat)
    ensures GoodBounds(lag, slack, width) <==> lag <= 7195 && lag <= 7200 + slack && width <= 63
  {
  }

  /** A tombstone outlives its delete by 7195 seconds, and a put its expiry by 7200. */
  lemma CleanedAfter(c: Change, now: int)
    ensures c.op.Delete? ==> (Expired(RowOf(c), now) <==> now > c.ts + 7195)
    ensures c.op.Put? ==> (Expired(RowOf(c), now) <==> c.op.ttl >= 0 && now > c.op.ttl + 7200)
  {
  }

  /** The row a replica without cleanup would hold. */
  function Ideal(t: Table, es: seq<Event>, id: string): Option<Row> {
    Lookup(ApplyAll(t, Arrivals(es)), id)
  }

  lemma {:induction false} IdealRowIsOk(t: Table, cs: seq<Change>, id: string, slack: int)
    requires forall c :: c in cs ==> PutOk(c, slack)
    requires forall i :: i in t ==> RowOk(t[i], slack)
    ensures Lookup(ApplyAll(t, cs), id).Some? ==> RowOk(Lookup(ApplyAll(t, cs), id).value, slack)
  {
    if cs != [] {
      assert PutOk(cs[|cs| - 1], slack);
      IdealRowIsOk(t, cs[..|cs| - 1], id, slack);
    }
  }

  /** A replica holds the ideal row, or a cleanup pass has removed it, long after it expired. */
  lemma {:induction false} CleanupOnlyRemovesExpired(t: Table, es: seq<Event>, id: string, now: int, lag: int, slack: int)
    requires Clocked(es, now) && Timely(es, lag)
    requires forall c :: c in Arrivals(es) ==> PutOk(c, slack)
    requires forall i :: i in t ==> RowOk(t[i], slack)
    requires lag <= CLEANUP_GRACE_SECONDS - TOMBSTONE_BACKDATE && lag <= CLEANUP_GRACE_SECONDS + slack
    ensures Lookup(Run(t, es), id) == Ideal(t, es, id)
            || (Lookup(Run(t, es), id).None? && Ideal(t, es, id).Some? && Expired(Ideal(t, es, id).value, now))
  {
    if es != [] {
      var front, e := es[..|es| - 1], es[|es| - 1];
      assert forall i :: 0 <= i < |front| ==> front[i] == es[i];
      assert Clocked(front, e.at) && Timely(front, lag);
      CleanupOnlyRemovesExpired(t, front, id, e.at, lag, slack);
      if e.Deliver? {
        var cs := Arrivals(front);
        assert Arrivals(es) == cs + [e.change];
        assert Arrivals(es)[..|Arrivals(es)| - 1] == cs;
        IdealRowIsOk(t, cs, id, slack);
        assert Ideal(t, es, id) == if e.change.id == id then ApplyCell(Ideal(t, front, id), e.change)
                                   else Ideal(t, front, id);
      } else {
        assert Arrivals(es) == Arrivals(front);
      }
    }
  }

  /** Under any cleanup schedule a reader sees the row of the greatest version. */
  lemma ReadersSeeLatest(t: Table, es: seq<Event>, now: int, id: string, lag: int, slack: int, width: nat)
    requires GoodBounds(lag, slack, width)
    requires SameDeliveries(t, es, es, now, lag, slack, width)
    ensures Latest(Ideal(t, es, id), Lookup(t, id), ChangesOf(Arrivals(es), id))
    ensures View(Run(t, es), id, now) == ViewCell(Ideal(t, es, id), now)
  {
    hide Latest, Run;
    CleanupOnlyRemovesExpired(t, es, id, now, lag, slack);
    assert forall i :: Fits(Lookup(t, i), ChangesOf(Arrivals(es), i), width);
    ApplyAllLeavesLatest(t, Arrivals(es), id);
  }

  lemma ReplicasAgree(t: Table, a: seq<Event>, b: seq<Event>, now: int, id: string, lag: int, slack: int, width: nat)
    requires GoodBounds(lag, slack, width)
    requires Comparable(t, a, b, now, lag, slack, width)
    ensures View(Run(t, a), id, now) == View(Run(t, b), id, now)
    ensures exists r :: Latest(r, Lookup(t, id), ChangesOf(Arrivals(a), id)) && View(Run(t, a), id, now) == ViewCell(r, now)
  {
    hide Latest, Run, Clocked, Timely, ViewCell, Ideal;
    assert ChangesOf(Arrivals(a), id) == ChangesOf(Arrivals(b), id);
    assert forall i :: ChangesOf(Arrivals(a), i) == ChangesOf(Arrivals(b), i);
    ReadersSeeLatest(t, a, now, id, lag, slack, width);
    ReadersSeeLatest(t, b, now, id, lag, slack, width);
    LatestLooksTheSame(Ideal(t, a, id), Ideal(t, b, id), Lookup(t, id), ChangesOf(Arrivals(a), id), now);
  }

  // Ties are the only reason for which such replicas disagree.

  /** All the changes at one moment. */
  function AtOnce(cs: seq<Change>, at: int): (es: seq<Event>)
    ensures |es| == |cs| && forall i :: 0 <= i < |es| ==> es[i] == Deliver(at, cs[i])
  {
    if cs == [] then [] else AtOnce(cs[..|cs| - 1], at) + [Deliver(at, cs[|cs| - 1])]
  }

  lemma {:induction false} RunAtOnce(t: Table, cs: seq<Change>, at: int)
    ensures Arrivals(AtOnce(cs, at)) == cs && Run(t, AtOnce(cs, at)) == ApplyAll(t, cs)
  {
    if cs != [] {
      hide Apply;
      var front, c, es := cs[..|cs| - 1], cs[|cs| - 1], AtOnce(cs, at);
      RunAtOnce(t, front, at);
      assert es[..|es| - 1] == AtOnce(front, at) && es[|es| - 1] == Deliver(at, c);
    }
  }

  lemma {:induction false} EarlyMoment(cs: seq<Change>, lag: int, now: int) returns (at: int)
    ensures at <= now && forall c :: c in cs ==> at <= c.ts + lag
  {
    if cs == [] { return now; }
    var c := cs[|cs| - 1];
    at := EarlyMoment(cs[..|cs| - 1], lag, now);
    if c.ts + lag < at { at := c.ts + lag; }
    assert cs == cs[..|cs| - 1] + [c];
  }

  lemma AtOnceIsTimely(ds: seq<Change>, at: int, now: int, lag: int)
    requires at <= now && forall c :: c in ds ==> at <= c.ts + lag
    ensures Clocked(AtOnce(ds, at), now) && Timely(AtOnce(ds, at), lag)
  {
    hide AtOnce;
    var es := AtOnce(ds, at);
    forall i | 0 <= i < |es| ensures es[i].at == at && es[i].at <= es[i].change.ts + lag {
      assert es[i] == Deliver(at, ds[i]) && ds[i] in ds;
    }
  }

  lemma AtOnceDelivers(t: Table, a: seq<Event>, ds: seq<Change>, at: int, now: int, lag: int, slack: int, width: nat)
    requires SameDeliveries(t, a, a, now, lag, slack, width) && (forall c :: c in ds <==> c in Arrivals(a))
    requires at <= now && forall c :: c in ds ==> at <= c.ts + lag
    ensures SameDeliveries(t, a, AtOnce(ds, at), now, lag, slack, width)
  {
    hide PutOk, RowOk, Fits, ChangesOf, Clocked, Timely, AtOnce, Arrivals, Run, ApplyAll;
    RunAtOnce(t, ds, at);
    AtOnceIsTimely(ds, at, now, lag);
  }

  /** Of the changes that a run received, any that none surpasses is what a reader sees at the end of another run. */
  lemma SomeRunEndsWith(t: Table, a: seq<Event>, now: int, id: string, c: Change, lag: int, slack: int, width: nat)
      returns (b: seq<Event>)
    requires width < ORIGIN_BUFFER && SameDeliveries(t, a, a, now, lag, slack, width)
    requires Top(c, Lookup(t, id), ChangesOf(Arrivals(a), id))
    ensures SameDeliveries(t, a, b, now, lag, slack, width)
    ensures View(Run(t, b), id, now) == ViewCell(Some(RowOf(c)), now)
  {
    hide ViewCell, RowOf, Run, ApplyAll, Top, Clocked, Timely;
    var cs := Arrivals(a);
    assert Fits(Lookup(t, id), ChangesOf(cs, id), ORIGIN_BUFFER - 1);
    LastTopWins(t, cs, id, c);
    var at := EarlyMoment(cs, lag, now);
    b := AtOnce(cs + [c], at);
    RunAtOnce(t, cs + [c], at);
    AtOnceDelivers(t, a, cs + [c], at, now, lag, slack, width);
  }

  /** All replicas that receive the changes of this run answer every read as it does. */
  ghost predicate AllAgree(t: Table, a: seq<Event>, now: int, lag: int, slack: int, width: nat) {
    forall b, id :: SameDeliveries(t, a, b, now, lag, slack, width) ==> View(Run(t, b), id, now) == View(Run(t, a), id, now)
  }

  /** Within the bounds, and for any run: they do so if and only if the changes that tie for the greatest version look
      alike. */
  lemma ReplicasAgreeExactly(t: Table, a: seq<Event>, now: int, lag: int, slack: int, width: nat)
    requires GoodBounds(lag, slack, width) && SameDeliveries(t, a, a, now, lag, slack, width)
    ensures AllAgree(t, a, now, lag, slack, width) <==> NoTieShows(t, a, now)
  {
    hide SameDeliveries, View, ViewCell, Top, Run, RowOf;
    if NoTieShows(t, a, now) {
      forall b, id | SameDeliveries(t, a, b, now, lag, slack, width) ensures View(Run(t, b), id, now) == View(Run(t, a), id, now) {
        ReplicasAgree(t, a, b, now, id, lag, slack, width);
      }
    }
    if AllAgree(t, a, now, lag, slack, width) {
      forall id, c, d | Top(c, Lookup(t, id), ChangesOf(Arrivals(a), id)) && Top(d, Lookup(t, id), ChangesOf(Arrivals(a), id))
        ensures ViewCell(Some(RowOf(c)), now) == ViewCell(Some(RowOf(d)), now)
      {
        var b := SomeRunEndsWith(t, a, now, id, c, lag, slack, width);
        var b' := SomeRunEndsWith(t, a, now, id, d, lag, slack, width);
        assert View(Run(t, b), id, now) == View(Run(t, a), id, now) == View(Run(t, b'), id, now);
      }
    }
  }

  /** Two local puts of one second carry the same version, and each replica keeps the one that came to it last. */
  lemma EqualVersionsDiverge(lag: int, slack: int, width: nat)
    ensures exists a, b, id :: SameDeliveries(map[], a, b, lag, lag, slack, width)
                               && View(Run(map[], a), id, lag) != View(Run(map[], b), id, lag)
  {
    var c, d := Change("k", Put("x", -1), 0, ""), Change("k", Put("y", -1), 0, "");
    var a, b := [Deliver(lag, c), Deliver(lag, d)], [Deliver(lag, d), Deliver(lag, c)];
    RunOf2(map[], a);
    RunOf2(map[], b);
    TwoChangesDelivered(a, b, lag, c, d, lag, slack, width);
    assert View(Run(map[], a), "k", lag) == Some(("y", Some(0)));
    assert View(Run(map[], b), "k", lag) == Some(("x", Some(0)));
  }

  // The bounds are exact: beyond each of them two replicas can disagree for ever.

  /** Two runs on fresh replicas, all at one moment, that deliver the same two changes. */
  lemma TwoChangesDelivered(a: seq<Event>, b: seq<Event>, now: int, c: Change, d: Change, lag: int, slack: int, width: nat)
    requires forall i :: 0 <= i < |a| ==> a[i].at == now && (a[i].Deliver? ==> a[i].change in {c, d})
    requires forall i :: 0 <= i < |b| ==> b[i].at == now && (b[i].Deliver? ==> b[i].change in {c, d})
    requires forall x :: x in Arrivals(a) <==> x == c || x == d
    requires forall x :: x in Arrivals(b) <==> x == c || x == d
    requires now <= c.ts + lag && now <= d.ts + lag && PutOk(c, slack) && PutOk(d, slack)
    requires |c.origin| <= width && |d.origin| <= width
    ensures SameDeliveries(map[], a, b, now, lag, slack, width)
  {
    forall id ensures Fits(Lookup(map[], id), ChangesOf(Arrivals(a), id), width) {}
  }

  lemma TwoChangesCompare(a: seq<Event>, b: seq<Event>, now: int, c: Change, d: Change, lag: int, slack: int, width: nat)
    requires SameDeliveries(map[], a, b, now, lag, slack, width)
    requires forall x :: x in Arrivals(a) <==> x == c || x == d
    requires c.origin != d.origin
    ensures Comparable(map[], a, b, now, lag, slack, width)
  {
    hide Newer, SameDeliveries;
    forall id ensures TiesLookAlike(Lookup(map[], id), ChangesOf(Arrivals(a), id), now) {
      DistinctVersionsAgree(Lookup(map[], id), ChangesOf(Arrivals(a), id));
    }
  }

  /** An older put that arrives after the newer change was cleaned away comes back to life. */
  lemma LateWriteRevives(lag: int, slack: int, width: nat, newer: Change, older: Change, now: int)
    requires newer.id == older.id && newer.ts == older.ts && newer.origin == "b" && older.origin == ""
    requires older.op == Put("x", -1) && PutOk(newer, slack) && width >= 1
    requires Expired(RowOf(newer), now) && now <= older.ts + lag
    ensures !Converges(lag, slack, width)
  {
    var a := [Deliver(now, newer), Cleanup(now), Deliver(now, older)];
    var b := [Deliver(now, older), Deliver(now, newer)];
    var id := newer.id;
    RunOf3(map[], a);
    RunOf2(map[], b);
    TwoChangesDelivered(a, b, now, older, newer, lag, slack, width);
    TwoChangesCompare(a, b, now, older, newer, lag, slack, width);
    assert View(Run(map[], a), id, now) == Some(("x", Some(older.ts)));
    assert View(Run(map[], b), id, now) == None;
  }

  lemma RunOf2(t: Table, es: seq<Event>)
    requires |es| == 2
    ensures Run(t, es) == Step(Step(t, es[0]), es[1])
    ensures es[0].Deliver? && es[1].Deliver? ==> Arrivals(es) == [es[0].change, es[1].change]
  {
    assert es[..1][..0] == [] && es[..1][0] == es[0];
    assert Run(t, es[..1]) == Step(t, es[0]);
    assert es[0].Deliver? ==> Arrivals(es[..1]) == [es[0].change];
  }

  lemma RunOf3(t: Table, es: seq<Event>)
    requires |es| == 3
    ensures Run(t, es) == Step(Step(Step(t, es[0]), es[1]), es[2])
    ensures es[0].Deliver? && es[1].Cleanup? && es[2].Deliver? ==> Arrivals(es) == [es[0].change, es[2].change]
  {
    RunOf2(t, es[..2]);
    assert es[..2][..1][0] == es[0] && es[..2][..1][..0] == [];
    assert es[0].Deliver? ==> Arrivals(es[..2][..1]) == [es[0].change];
  }

  lemma {:induction false} PrefixIsNotGreater(s: string, t: string)
    ensures !Less(s + t, s)
  {
    if s != "" {
      assert (s + t)[1..] == s[1..] + t;
      PrefixIsNotGreater(s[1..], t);
    }
  }

  /** Two origins that differ only beyond the buffer: each overwrites the other. */
  lemma LongOriginsTie(lag: int, slack: int, width: nat)
    requires width >= ORIGIN_BUFFER
    ensures !Converges(lag, slack, width)
  {
    var o := seq(ORIGIN_BUFFER - 1, _ => 'a');
    var c, d := Change("k", Put("x", -1), 0, o + "b"), Change("k", Put("y", -1), 0, o + "c");
    assert (o + "b")[|o|] == 'b' && (o + "c")[|o|] == 'c';
    assert c.origin != d.origin && o == Clip(c.origin, ORIGIN_BUFFER) == Clip(d.origin, ORIGIN_BUFFER);
    PrefixIsNotGreater(o, "b");
    PrefixIsNotGreater(o, "c");
    var a, b := [Deliver(lag, c), Deliver(lag, d)], [Deliver(lag, d), Deliver(lag, c)];
    RunOf2(map[], a);
    RunOf2(map[], b);
    TwoChangesDelivered(a, b, lag, c, d, lag, slack, width);
    TwoChangesCompare(a, b, lag, c, d, lag, slack, width);
    assert View(Run(map[], a), "k", lag) == Some(("y", Some(0)));
    assert View(Run(map[], b), "k", lag) == Some(("x", Some(0)));
  }

  /** Replicas converge under any cleanup schedule exactly when changes arrive within 7195 seconds, puts do not
      expire so early that the grace window closes before that delay is over, and origins fit their buffer. */
  lemma ConvergesExactlyWithin(lag: int, slack: int, width: nat)
    requires width >= 1
    ensures Converges(lag, slack, width) <==> lag <= 7195 && lag <= 7200 + slack && width <= 63
  {
    BoundsInNumbers(lag, slack, width);
    if GoodBounds(lag, slack, width) {
      forall t, a, b, now, id | Comparable(t, a, b, now, lag, slack, width)
        ensures View(Run(t, a), id, now) == View(Run(t, b), id, now)
      {
        ReplicasAgree(t, a, b, now, id, lag, slack, width);
      }
    } else if width >= ORIGIN_BUFFER {
      LongOriginsTie(lag, slack, width);
    } else if lag > CLEANUP_GRACE_SECONDS - TOMBSTONE_BACKDATE {
      LateWriteRevives(lag, slack, width, Change("k", Delete, 0, "b"), Change("k", Put("x", -1), 0, ""), lag);
    } else {
      var ts := if slack < 0 then -slack else 0;
      LateWriteRevives(lag, slack, width, Change("k", Put("y", ts + slack), ts, "b"),
                       Change("k", Put("x", -1), ts, ""), ts + lag);
    }
  }
}
