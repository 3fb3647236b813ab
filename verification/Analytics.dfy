/**
 * Work counted on each node and added up over the cluster (src/engine/epsilon_analytics.c). The
 * four look-up-or-append routines of the program differ only in which names they compare.
 */
module Analytics {
  import opened Strings

  /** Counters that add up, and a peak (size on disk, slowest call) of which the greatest counts. */
  datatype Figures = Figures(calls: nat, puts: nat, updates: nat, deletes: nat, callUs: nat, putUs: nat, peak: nat)

  const NOTHING := Figures(0, 0, 0, 0, 0, 0, 0)

  function Max(a: nat, b: nat): nat { if a < b then b else a }

  function Both(x: Figures, y: Figures): Figures {
    Figures(x.calls + y.calls, x.puts + y.puts, x.updates + y.updates, x.deletes + y.deletes,
            x.callUs + y.callUs, x.putUs + y.putUs, Max(x.peak, y.peak))
  }

  /** What an entry is about: a shard, or one kind of call on a shard with one set of filters. */
  datatype Names = Shard(partition: string, keyspace: string)
                 | Call(kind: string, partition: string, keyspace: string, filter: string)

  /** An entry under its names as they fit their buffers. */
  datatype Entry = Entry(names: Names, f: Figures)

  function Cut(names: Names): Names {
    match names
    case Shard(p, k) => Shard(Clip(p, 256), Clip(k, 128))
    case Call(kind, p, k, filter) => Call(Clip(kind, 16), Clip(p, 256), Clip(k, 128), Clip(filter, 256))
  }

  predicate Fit(names: Names) {
    match names
    case Shard(p, k) => |p| < 256 && |k| < 128
    case Call(kind, p, k, filter) => |kind| < 16 && |p| < 256 && |k| < 128 && |filter| < 256
  }

  predicate AllFit(list: seq<Entry>) {
    forall i :: 0 <= i < |list| ==> Fit(list[i].names)
  }

  predicate Named(e: Entry, names: Names) { e.names == names }

  // -------------------------------------------------------------------------
  // Look up or append

  function FindAt(list: seq<Entry>, names: Names): (i: nat)
    ensures i <= |list| && (i < |list| ==> Named(list[i], names))
  {
    if list == [] || Named(list[0], names) then 0 else 1 + FindAt(list[1..], names)
  }

  lemma {:induction false} FindsFirst(list: seq<Entry>, names: Names, i: nat)
    requires i <= |list| && (forall j :: 0 <= j < i ==> !Named(list[j], names)) && (i < |list| ==> Named(list[i], names))
    ensures FindAt(list, names) == i
  {
    if i > 0 { FindsFirst(list[1..], names, i - 1); }
  }

  lemma {:induction false} MissingIsNowhere(list: seq<Entry>, names: Names)
    requires FindAt(list, names) == |list|
    ensures forall i :: 0 <= i < |list| ==> !Named(list[i], names)
  {
    if list != [] {
      MissingIsNowhere(list[1..], names);
      assert forall i :: 1 <= i < |list| ==> list[i] == list[1..][i - 1];
    }
  }

  function Count(list: seq<Entry>, names: Names, f: Figures): seq<Entry> {
    var i := FindAt(list, names);
    if i < |list| then list[i := Entry(names, Both(list[i].f, f))] else list + [Entry(Cut(names), f)]
  }

  method CountIn(list: seq<Entry>, names: Names, f: Figures) returns (r: seq<Entry>)
    ensures r == Count(list, names, f)
  {
    var i := 0;
    while i < |list| && !Named(list[i], names)
      invariant 0 <= i <= |list| && forall j :: 0 <= j < i ==> !Named(list[j], names)
    {
      i := i + 1;
    }
    FindsFirst(list, names, i);
    if i < |list| {
      r := list[i := Entry(list[i].names, Both(list[i].f, f))];
    } else {
      var blank := Entry(Cut(names), NOTHING);
      r := list + [Entry(blank.names, Both(blank.f, f))];
    }
  }

  /** Everything a list holds under a name. */
  function Total(list: seq<Entry>, key: Names): Figures {
    if list == [] then NOTHING
    else Both(Total(list[..|list| - 1], key), if Named(list[|list| - 1], key) then list[|list| - 1].f else NOTHING)
  }

  lemma Regroup(x: Figures, y: Figures, z: Figures)
    ensures Both(Both(x, y), z) == Both(x, Both(y, z)) && Both(x, y) == Both(y, x) && Both(x, NOTHING) == x == Both(NOTHING, x)
  {
  }

  lemma {:induction false} TotalAfterUpdate(list: seq<Entry>, i: nat, f: Figures, key: Names)
    requires i < |list|
    ensures Total(list[i := Entry(list[i].names, Both(list[i].f, f))], key)
         == Both(Total(list, key), if Named(list[i], key) then f else NOTHING)
    decreases |list|
  {
    hide Both;
    var n := |list| - 1;
    var after := list[i := Entry(list[i].names, Both(list[i].f, f))];
    var x, y, z := Total(list[..n], key), if Named(list[n], key) then list[n].f else NOTHING, if Named(list[i], key) then f else NOTHING;
    Regroup(x, y, z);
    Regroup(y, z, NOTHING);
    Regroup(x, z, y);
    if i == n {
      assert after[..n] == list[..n];
    } else {
      assert after[..n] == list[..n][i := Entry(list[i].names, Both(list[i].f, f))];
      TotalAfterUpdate(list[..n], i, f, key);
    }
  }

  predicate Has(list: seq<Entry>, key: Names) {
    exists i :: 0 <= i < |list| && Named(list[i], key)
  }

  lemma HasLast(list: seq<Entry>, key: Names)
    requires list != []
    ensures Has(list, key) <==> Has(list[..|list| - 1], key) || Named(list[|list| - 1], key)
  {
    var front := list[..|list| - 1];
    if Has(front, key) {
      var i :| 0 <= i < |front| && Named(front[i], key);
      assert Named(list[i], key);
    }
    if i :| 0 <= i < |list| && Named(list[i], key) {
      if i < |front| { assert Named(front[i], key); }
    }
  }

  lemma CutOfFit(names: Names)
    requires Fit(names)
    ensures Cut(names) == names
  {
  }

  lemma CutFits(names: Names)
    ensures Fit(Cut(names))
  {
  }

  lemma CountKeepsFit(list: seq<Entry>, names: Names, f: Figures)
    requires AllFit(list)
    ensures AllFit(Count(list, names, f))
  {
    hide Cut, Fit, Both;
    CutFits(names);
    var i := FindAt(list, names);
    if i < |list| { assert Fit(list[i].names); }
  }

  /** One count adds just its figures, under its names as cut, whether or not they were cut. */
  lemma CountAddsUp(list: seq<Entry>, names: Names, f: Figures, key: Names)
    requires AllFit(list)
    ensures Total(Count(list, names, f), key) == Both(Total(list, key), if Cut(names) == key then f else NOTHING)
  {
    hide Cut, Fit, Both;
    var i := FindAt(list, names);
    if i < |list| {
      assert Fit(list[i].names);
      CutOfFit(names);
      TotalAfterUpdate(list, i, f, key);
    } else {
      var more := list + [Entry(Cut(names), f)];
      assert more[..|list|] == list;
    }
  }

  /** And no name but that one is new. */
  lemma CountHas(list: seq<Entry>, names: Names, f: Figures, key: Names)
    requires AllFit(list)
    ensures Has(Count(list, names, f), key) <==> Has(list, key) || Cut(names) == key
  {
    hide Cut, Fit, Both;
    var i := FindAt(list, names);
    var after := Count(list, names, f);
    if i < |list| {
      assert Fit(list[i].names);
      CutOfFit(names);
      assert Named(after[i], names) && forall j :: 0 <= j < |list| ==> after[j].names == list[j].names;
      if Has(list, key) {
        var j :| 0 <= j < |list| && Named(list[j], key);
        assert Named(after[j], key);
      }
      if j :| 0 <= j < |after| && Named(after[j], key) { assert Named(list[j], key); }
    } else {
      HasLast(after, key);
      assert after[..|list|] == list;
    }
  }

  // -------------------------------------------------------------------------
  // One slow entry for a set of filter keys, whatever their order

  function Insert(x: string, s: seq<string>): seq<string> {
    if s == [] || !Less(s[0], x) then [x] + s else [s[0]] + Insert(x, s[1..])
  }

  /** qsort with strcmp. */
  function Sorted(keys: seq<string>): seq<string> {
    if keys == [] then [] else Insert(keys[0], Sorted(keys[1..]))
  }

  predicate Ascending(s: seq<string>) {
    forall i, j :: 0 <= i < j < |s| ==> !Less(s[j], s[i])
  }

  lemma NotLessIsTransitive(a: string, b: string, c: string)
    requires !Less(b, a) && !Less(c, b)
    ensures !Less(c, a)
  {
    LessIsTotal(a, b);
    LessIsTotal(b, c);
    if Less(a, b) && Less(b, c) { LessIsTransitive(a, b, c); }
    if Less(c, a) { LessIsAsymmetric(c, a); }
  }

  lemma {:induction false} InsertIsOrdered(x: string, s: seq<string>)
    requires Ascending(s)
    ensures Ascending(Insert(x, s)) && multiset(Insert(x, s)) == multiset(s) + multiset{x}
  {
    if s == [] {
    } else if !Less(s[0], x) {
      var r := [x] + s;
      forall j | 1 <= j < |r| ensures !Less(r[j], x) {
        if j > 1 { NotLessIsTransitive(x, s[0], s[j - 1]); }
      }
    } else {
      var rest := Insert(x, s[1..]);
      InsertIsOrdered(x, s[1..]);
      assert s == [s[0]] + s[1..];
      LessIsAsymmetric(s[0], x);
      forall j | 0 <= j < |rest| ensures !Less(rest[j], s[0]) {
        assert rest[j] in multiset(rest);
        if rest[j] != x {
          assert rest[j] in multiset(s[1..]) && rest[j] in s[1..];
          var k :| 0 <= k < |s[1..]| && s[1..][k] == rest[j];
          assert s[k + 1] == rest[j];
        }
      }
    }
  }

  lemma {:induction false} SortedIsOrdered(keys: seq<string>)
    ensures Ascending(Sorted(keys)) && multiset(Sorted(keys)) == multiset(keys)
  {
    if keys != [] {
      SortedIsOrdered(keys[1..]);
      InsertIsOrdered(keys[0], Sorted(keys[1..]));
      assert keys == [keys[0]] + keys[1..];
    }
  }

  /** There is only one ascending arrangement. */
  lemma {:induction false} OrderIsUnique(a: seq<string>, b: seq<string>)
    requires Ascending(a) && Ascending(b) && multiset(a) == multiset(b)
    ensures a == b
  {
    if a == [] {
      assert |multiset(b)| == 0;
    } else {
      hide Less;
      assert a[0] in multiset(a) && a[0] in b;
      assert |b| > 0 && b[0] in multiset(b) && b[0] in a;
      LessIsTotal(a[0], b[0]);
      HeadIsLeast(a, b[0]);
      HeadIsLeast(b, a[0]);
      Behead(a, b);
      assert Ascending(a[1..]) && Ascending(b[1..]);
      OrderIsUnique(a[1..], b[1..]);
    }
  }

  lemma Behead<T>(a: seq<T>, b: seq<T>)
    requires a != [] && b != [] && a[0] == b[0] && multiset(a) == multiset(b)
    ensures multiset(a[1..]) == multiset(b[1..]) && a == [a[0]] + a[1..] && b == [b[0]] + b[1..]
  {
    assert a == [a[0]] + a[1..] && b == [b[0]] + b[1..];
    assert multiset(a) == multiset(a[1..]) + multiset{a[0]};
    assert multiset(b) == multiset(b[1..]) + multiset{a[0]};
    Drop(multiset(a[1..]), multiset(b[1..]), a[0]);
  }

  lemma HeadIsLeast(a: seq<string>, x: string)
    requires Ascending(a) && x in a
    ensures !Less(x, a[0])
  {
    var i :| 0 <= i < |a| && a[i] == x;
    if i == 0 { if Less(x, x) { LessIsAsymmetric(x, x); } }
  }

  /** What the join loop leaves in a buffer of cap bytes from key i on, with `out` written already. */
  function JoinFrom(sorted: seq<string>, i: nat, out: string, cap: nat): (r: string)
    requires i <= |sorted| && |out| < cap
    ensures |r| < cap && out <= r
    decreases |sorted| - i
  {
    if i == |sorted| then out
    else
      var comma := if i > 0 && |out| + 1 < cap then out + "," else out;
      if |comma| + |sorted[i]| >= cap then comma else JoinFrom(sorted, i + 1, comma + sorted[i], cap)
  }

  function FilterKey(keys: seq<string>, cap: nat): string
    requires cap > 0
  {
    JoinFrom(Sorted(keys), 0, "", cap)
  }

  /** Two keys in a slow entry's filter: in strcmp's order, with a comma between them. */
  lemma TwoKeysJoined(x: string, y: string)
    requires Less(x, y) && |x| + 1 + |y| < 256
    ensures FilterKey([x, y], 256) == x + "," + y && FilterKey([y, x], 256) == x + "," + y
  {
    TwoSorted(x, y);
    hide Less, Sorted;
    JoinedTwo(x, y);
  }

  lemma TwoSorted(x: string, y: string)
    requires Less(x, y)
    ensures Sorted([x, y]) == [x, y] == Sorted([y, x])
  {
    hide Less;
    LessIsAsymmetric(x, y);
    OneSorted(x);
    OneSorted(y);
    assert [x, y][1..] == [y] && [y, x][1..] == [x];
    assert Insert(x, [y]) == [x] + [y];
    assert [x][1..] == [] && Insert(y, []) == [y];
    assert Insert(y, [x]) == [x] + Insert(y, [x][1..]) == [x] + [y];
  }

  lemma OneSorted(x: string)
    ensures Sorted([x]) == [x]
  {
    assert [x][1..] == [];
    assert Sorted([]) == [];
  }

  lemma JoinedTwo(x: string, y: string)
    requires |x| + 1 + |y| < 256
    ensures JoinFrom([x, y], 0, "", 256) == x + "," + y
  {
    var s := [x, y];
    assert "" + x == x;
    assert JoinFrom(s, 2, x + "," + y, 256) == x + "," + y;
    assert JoinFrom(s, 1, x, 256) == JoinFrom(s, 2, x + "," + y, 256);
  }

  /** The buffer is never overrun: every byte written, and the terminator, lies within it. */
  method JoinFilterKeys(keys: seq<string>, buffer: array<char>) returns (used: nat)
    requires buffer.Length > 0
    modifies buffer
    ensures used < buffer.Length && buffer[used] == '\0'
    ensures buffer[..used] == FilterKey(keys, buffer.Length)
  {
    var sorted, cap := Sorted(keys), buffer.Length;
    used := 0;
    assert buffer[..0] == "";
    var i := 0;
    while i < |sorted|
      invariant 0 <= i <= |sorted| && used < cap
      invariant JoinFrom(sorted, 0, "", cap) == JoinFrom(sorted, i, buffer[..used], cap)
    {
      ghost var out := buffer[..used];
      if i > 0 && used + 1 < cap {
        buffer[used] := ',';
        used := used + 1;
        assert buffer[..used] == out + ",";
      }
      ghost var comma := buffer[..used];
      var len := |sorted[i]|;
      if used + len >= cap { break; }
      forall j | 0 <= j < len { buffer[used + j] := sorted[i][j]; }
      used := used + len;
      assert buffer[..used] == comma + sorted[i];
      i := i + 1;
    }
    buffer[used] := '\0';
  }

  /** The same filters in any order are counted as the same query. */
  lemma OrderOfFiltersDoesNotMatter(a: seq<string>, b: seq<string>, cap: nat)
    requires multiset(a) == multiset(b) && cap > 0
    ensures FilterKey(a, cap) == FilterKey(b, cap)
  {
    SortedIsOrdered(a);
    SortedIsOrdered(b);
    OrderIsUnique(Sorted(a), Sorted(b));
  }

  // -------------------------------------------------------------------------
  // Recording on one node

  datatype Event =
    | Read(partition: string, keyspace: string, us: nat)
    | Write(partition: string, keyspace: string, update: bool, us: nat)
    | Delete(partition: string, keyspace: string, us: nat)
    | Query(partition: string, keyspace: string, keys: seq<string>, us: nat)

  function ShardFigures(e: Event): Figures {
    match e
    case Read(_, _, us) => Figures(1, 0, 0, 0, us, 0, 0)
    case Query(_, _, _, us) => Figures(1, 0, 0, 0, us, 0, 0)
    case Write(_, _, update, us) => Figures(0, 1, if update then 1 else 0, 0, 0, us, 0)
    case Delete(_, _, us) => Figures(0, 0, 0, 1, 0, us, 0)
  }

  function CallNames(e: Event): Names {
    match e
    case Read(p, k, _) => Call("read", p, k, "")
    case Write(p, k, _, _) => Call("write", p, k, "")
    case Delete(p, k, _) => Call("delete", p, k, "")
    case Query(p, k, keys, _) => Call("query", p, k, FilterKey(keys, 256))
  }

  function SlowFigures(e: Event): Figures { Figures(1, 0, 0, 0, e.us, 0, e.us) }

  /** The two tables of a node: work by shard, and by kind of call. */
  datatype Kind = ByShard | ByCall

  function NamesOf(kind: Kind, e: Event): Names {
    if kind == ByShard then Shard(e.partition, e.keyspace) else CallNames(e)
  }

  function FiguresOf(kind: Kind, e: Event): Figures { if kind == ByShard then ShardFigures(e) else SlowFigures(e) }

  function Recorded(kind: Kind, es: seq<Event>): seq<Entry> {
    if es == [] then []
    else
      var e := es[|es| - 1];
      Count(Recorded(kind, es[..|es| - 1]), NamesOf(kind, e), FiguresOf(kind, e))
  }

  class Node {
    var shards: seq<Entry>
    var slow: seq<Entry>
    ghost var events: seq<Event>

    ghost predicate Valid()
      reads this
    {
      shards == Recorded(ByShard, events) && slow == Recorded(ByCall, events)
    }

    constructor ()
      ensures Valid() && events == []
    {
      shards, slow, events := [], [], [];
    }

    method RecordSlow(kind: string, partition: string, keyspace: string, filter: string, us: nat)
      modifies this`slow
      ensures slow == Count(old(slow), Call(kind, partition, keyspace, filter), Figures(1, 0, 0, 0, us, 0, us))
    {
      slow := CountIn(slow, Call(kind, partition, keyspace, filter), Figures(1, 0, 0, 0, us, 0, us));
    }

    method CountRead(partition: string, keyspace: string, us: nat)
      modifies this`shards
      ensures shards == Count(old(shards), Shard(partition, keyspace), Figures(1, 0, 0, 0, us, 0, 0))
    {
      shards := CountIn(shards, Shard(partition, keyspace), Figures(1, 0, 0, 0, us, 0, 0));
    }

    method RecordRead(partition: string, keyspace: string, us: nat)
      requires Valid()
      modifies this
      ensures Valid() && events == old(events) + [Read(partition, keyspace, us)]
    {
      hide Count, FilterKey;
      CountRead(partition, keyspace, us);
      RecordSlow("read", partition, keyspace, "", us);
      OneMore(ByShard, events, Read(partition, keyspace, us));
      OneMore(ByCall, events, Read(partition, keyspace, us));
      events := events + [Read(partition, keyspace, us)];
    }

    method RecordWrite(partition: string, keyspace: string, update: bool, us: nat)
      requires Valid()
      modifies this
      ensures Valid() && events == old(events) + [Write(partition, keyspace, update, us)]
    {
      hide Count, FilterKey;
      shards := CountIn(shards, Shard(partition, keyspace), Figures(0, 1, if update then 1 else 0, 0, 0, us, 0));
      RecordSlow("write", partition, keyspace, "", us);
      OneMore(ByShard, events, Write(partition, keyspace, update, us));
      OneMore(ByCall, events, Write(partition, keyspace, update, us));
      events := events + [Write(partition, keyspace, update, us)];
    }

    method RecordDelete(partition: string, keyspace: string, us: nat)
      requires Valid()
      modifies this
      ensures Valid() && events == old(events) + [Delete(partition, keyspace, us)]
    {
      hide Count, FilterKey;
      shards := CountIn(shards, Shard(partition, keyspace), Figures(0, 0, 0, 1, 0, us, 0));
      RecordSlow("delete", partition, keyspace, "", us);
      OneMore(ByShard, events, Delete(partition, keyspace, us));
      OneMore(ByCall, events, Delete(partition, keyspace, us));
      events := events + [Delete(partition, keyspace, us)];
    }

    method RecordQuery(partition: string, keyspace: string, keys: seq<string>, us: nat)
      requires Valid()
      modifies this
      ensures Valid() && events == old(events) + [Query(partition, keyspace, keys, us)]
    {
      hide Count, FilterKey;
      var buffer := new char[256];
      var used := JoinFilterKeys(keys, buffer);
      var filter := buffer[..used];
      CountRead(partition, keyspace, us);
      RecordSlow("query", partition, keyspace, filter, us);
      OneMore(ByShard, events, Query(partition, keyspace, keys, us));
      OneMore(ByCall, events, Query(partition, keyspace, keys, us));
      events := events + [Query(partition, keyspace, keys, us)];
    }
  }

  lemma OneMore(kind: Kind, es: seq<Event>, e: Event)
    ensures Recorded(kind, es + [e]) == Count(Recorded(kind, es), NamesOf(kind, e), FiguresOf(kind, e))
  {
    assert (es + [e])[..|es|] == es;
  }

  /** The work of the events that fall under a key. */
  function Work(kind: Kind, es: seq<Event>, key: Names): Figures {
    if es == [] then NOTHING
    else
      var e := es[|es| - 1];
      Both(Work(kind, es[..|es| - 1], key), if Cut(NamesOf(kind, e)) == key then FiguresOf(kind, e) else NOTHING)
  }

  /** A node's table holds exactly the work of its events, key by key. */
  lemma {:induction false} RecordingAddsUp(kind: Kind, es: seq<Event>, key: Names)
    ensures AllFit(Recorded(kind, es)) && Total(Recorded(kind, es), key) == Work(kind, es, key)
  {
    if es != [] {
      hide Cut, Fit, Both, FiguresOf, NamesOf, Count;
      var front, e := es[..|es| - 1], es[|es| - 1];
      RecordingAddsUp(kind, front, key);
      CountKeepsFit(Recorded(kind, front), NamesOf(kind, e), FiguresOf(kind, e));
      CountAddsUp(Recorded(kind, front), NamesOf(kind, e), FiguresOf(kind, e), key);
    }
  }

  // What that work is, in numbers

  function Number(es: seq<Event>, counts: Event -> bool): nat {
    if es == [] then 0 else Number(es[..|es| - 1], counts) + if counts(es[|es| - 1]) then 1 else 0
  }

  /** The time that all of them took. */
  function Time(es: seq<Event>, counts: Event -> bool): nat {
    if es == [] then 0 else Time(es[..|es| - 1], counts) + if counts(es[|es| - 1]) then es[|es| - 1].us else 0
  }

  /** The time of the one that took longest. */
  function Longest(es: seq<Event>, counts: Event -> bool): nat {
    if es == [] then 0
    else
      var before, e := Longest(es[..|es| - 1], counts), es[|es| - 1];
      if counts(e) && e.us > before then e.us else before
  }

  predicate On(e: Event, p: string, k: string) { Clip(e.partition, 256) == p && Clip(e.keyspace, 128) == k }

  /** The counters of a shard: reads and queries, writes, those of them that are updates, and deletes; the time of reads
      and queries, and that of writes and deletes. */
  lemma {:induction false} ShardWorkIs(es: seq<Event>, p: string, k: string)
    ensures Work(ByShard, es, Shard(p, k)) ==
            Figures(Number(es, (e: Event) => (e.Read? || e.Query?) && On(e, p, k)),
                    Number(es, (e: Event) => e.Write? && On(e, p, k)),
                    Number(es, (e: Event) => e.Write? && e.update && On(e, p, k)),
                    Number(es, (e: Event) => e.Delete? && On(e, p, k)),
                    Time(es, (e: Event) => (e.Read? || e.Query?) && On(e, p, k)),
                    Time(es, (e: Event) => (e.Write? || e.Delete?) && On(e, p, k)), 0)
  {
    if es != [] { ShardWorkIs(es[..|es| - 1], p, k); }
  }

  /** An event of that kind on that shard; a query counts under its filters only. */
  predicate IsCall(e: Event, kind: string, p: string, k: string, filter: string) {
    && On(e, p, k)
    && match e
       case Read(_, _, _) => kind == "read" && filter == ""
       case Write(_, _, _, _) => kind == "write" && filter == ""
       case Delete(_, _, _) => kind == "delete" && filter == ""
       case Query(_, _, keys, _) => kind == "query" && filter == Clip(FilterKey(keys, 256), 256)
  }

  /** A slow entry: how many calls, their time, and the longest. */
  lemma {:induction false} CallWorkIs(es: seq<Event>, kind: string, p: string, k: string, filter: string)
    ensures Work(ByCall, es, Call(kind, p, k, filter)) ==
            Figures(Number(es, (e: Event) => IsCall(e, kind, p, k, filter)), 0, 0, 0,
                    Time(es, (e: Event) => IsCall(e, kind, p, k, filter)), 0,
                    Longest(es, (e: Event) => IsCall(e, kind, p, k, filter)))
  {
    hide FilterKey;
    if es != [] {
      CallWorkIs(es[..|es| - 1], kind, p, k, filter);
      CallIs(es[|es| - 1], kind, p, k, filter);
    }
  }

  lemma CallIs(e: Event, kind: string, p: string, k: string, filter: string)
    ensures Cut(CallNames(e)) == Call(kind, p, k, filter) <==> IsCall(e, kind, p, k, filter)
  {
    hide FilterKey;
    assert Clip("read", 16) == "read" && Clip("write", 16) == "write" && Clip("delete", 16) == "delete" && Clip("query", 16) == "query";
  }

  ghost predicate Happened(kind: Kind, es: seq<Event>, key: Names) {
    exists e :: e in es && Cut(NamesOf(kind, e)) == key
  }

  /** The table has an entry for just the names under which something happened. */
  lemma {:induction false} RecordingHas(kind: Kind, es: seq<Event>, key: Names)
    ensures Has(Recorded(kind, es), key) <==> Happened(kind, es, key)
  {
    if es != [] {
      hide Cut, Fit, FiguresOf, NamesOf, Count, Has;
      var front, e := es[..|es| - 1], es[|es| - 1];
      assert es == front + [e];
      RecordingHas(kind, front, key);
      RecordingAddsUp(kind, front, key);
      CountHas(Recorded(kind, front), NamesOf(kind, e), FiguresOf(kind, e), key);
    }
  }

  // -------------------------------------------------------------------------
  // The report over all nodes

  /** A snapshot of the shard table carries the size each shard has on that node's disk. */
  function Sized(list: seq<Entry>, size: Names -> nat): seq<Entry> {
    seq(|list|, i requires 0 <= i < |list| => Entry(list[i].names, list[i].f.(peak := size(list[i].names))))
  }

  /** One snapshot's entries, added to the report one after the other. */
  function AddTable(report: seq<Entry>, t: seq<Entry>): seq<Entry> {
    if t == [] then report
    else Count(AddTable(report, t[..|t| - 1]), t[|t| - 1].names, t[|t| - 1].f)
  }

  predicate Snapshots(ts: seq<seq<Entry>>) { forall i :: 0 <= i < |ts| ==> AllFit(ts[i]) }

  function Report(ts: seq<seq<Entry>>): seq<Entry>
    requires Snapshots(ts)
  {
    if ts == [] then [] else AddTable(Report(ts[..|ts| - 1]), ts[|ts| - 1])
  }

  /** The report's loops: every entry of every snapshot is looked up or appended, and added. */
  method BuildReport(ts: seq<seq<Entry>>) returns (report: seq<Entry>)
    requires Snapshots(ts)
    ensures report == Report(ts)
  {
    hide Count;
    report := [];
    for n := 0 to |ts|
      invariant report == Report(ts[..n])
    {
      assert ts[..n + 1][..n] == ts[..n];
      ghost var before := report;
      var t := ts[n];
      for i := 0 to |t|
        invariant report == AddTable(before, t[..i])
      {
        assert t[..i + 1][..i] == t[..i] && Fit(t[i].names);
        report := CountIn(report, t[i].names, t[i].f);
      }
      assert t[..|t|] == t;
    }
    assert ts[..|ts|] == ts;
  }

  function Sum(ts: seq<seq<Entry>>, key: Names): Figures {
    if ts == [] then NOTHING else Both(Sum(ts[..|ts| - 1], key), Total(ts[|ts| - 1], key))
  }

  lemma {:induction false} TableAddsUp(report: seq<Entry>, t: seq<Entry>, key: Names)
    requires AllFit(report) && AllFit(t)
    ensures AllFit(AddTable(report, t))
    ensures Total(AddTable(report, t), key) == Both(Total(report, key), Total(t, key))
  {
    if t == [] {
      Regroup(Total(report, key), NOTHING, NOTHING);
    } else {
      hide Both, Cut, Fit, Count;
      var front, e := t[..|t| - 1], t[|t| - 1];
      TableAddsUp(report, front, key);
      var before := AddTable(report, front);
      assert Fit(e.names);
      CutOfFit(e.names);
      CountKeepsFit(before, e.names, e.f);
      CountAddsUp(before, e.names, e.f, key);
      Regroup(Total(report, key), Total(front, key), if e.names == key then e.f else NOTHING);
    }
  }

  lemma {:induction false} ReportAddsUp(ts: seq<seq<Entry>>, key: Names)
    requires Snapshots(ts)
    ensures AllFit(Report(ts)) && Total(Report(ts), key) == Sum(ts, key)
  {
    if ts != [] {
      hide Both, AddTable;
      ReportAddsUp(ts[..|ts| - 1], key);
      TableAddsUp(Report(ts[..|ts| - 1]), ts[|ts| - 1], key);
    }
  }

  // The report has an entry for every name of every snapshot, and for no other

  ghost predicate SomeHas(ts: seq<seq<Entry>>, key: Names) {
    exists t :: t in ts && Has(t, key)
  }

  lemma {:induction false} TableHas(report: seq<Entry>, t: seq<Entry>, key: Names)
    requires AllFit(report) && AllFit(t)
    ensures Has(AddTable(report, t), key) <==> Has(report, key) || Has(t, key)
  {
    if t != [] {
      hide Cut, Fit, Count, Has;
      var front, e := t[..|t| - 1], t[|t| - 1];
      TableHas(report, front, key);
      TableAddsUp(report, front, key);
      assert Fit(e.names);
      CutOfFit(e.names);
      CountHas(AddTable(report, front), e.names, e.f, key);
      HasLast(t, key);
    }
  }

  lemma {:induction false} ReportHas(ts: seq<seq<Entry>>, key: Names)
    requires Snapshots(ts)
    ensures Has(Report(ts), key) <==> SomeHas(ts, key)
  {
    if ts != [] {
      hide AddTable, Has;
      var front, t := ts[..|ts| - 1], ts[|ts| - 1];
      assert ts == front + [t];
      ReportHas(front, key);
      ReportAddsUp(front, key);
      TableHas(Report(front), t, key);
    }
  }

  // No name has two entries in the report

  predicate NoTwins(list: seq<Entry>) {
    forall i, j :: 0 <= i < j < |list| ==> !Named(list[i], list[j].names)
  }

  lemma CountMakesNoTwin(list: seq<Entry>, names: Names, f: Figures)
    requires NoTwins(list) && Fit(names)
    ensures NoTwins(Count(list, names, f))
  {
    CutOfFit(names);
    if FindAt(list, names) == |list| { MissingIsNowhere(list, names); }
  }

  lemma {:induction false} TableMakesNoTwin(report: seq<Entry>, t: seq<Entry>)
    requires NoTwins(report) && AllFit(t)
    ensures NoTwins(AddTable(report, t))
  {
    if t != [] {
      TableMakesNoTwin(report, t[..|t| - 1]);
      CountMakesNoTwin(AddTable(report, t[..|t| - 1]), t[|t| - 1].names, t[|t| - 1].f);
    }
  }

  lemma {:induction false} ReportHasNoTwins(ts: seq<seq<Entry>>)
    requires Snapshots(ts)
    ensures NoTwins(Report(ts))
  {
    if ts != [] {
      ReportHasNoTwins(ts[..|ts| - 1]);
      TableMakesNoTwin(Report(ts[..|ts| - 1]), ts[|ts| - 1]);
    }
  }

  lemma LastCounts(list: seq<Entry>, key: Names)
    requires list != []
    ensures !Named(list[|list| - 1], key) ==> Total(list, key) == Total(list[..|list| - 1], key)
  {
    hide Both, Named;
    Regroup(Total(list[..|list| - 1], key), NOTHING, NOTHING);
  }

  lemma {:induction false} NothingElsewhere(list: seq<Entry>, key: Names)
    requires forall i :: 0 <= i < |list| ==> !Named(list[i], key)
    ensures Total(list, key) == NOTHING
    decreases |list|
  {
    if list != [] {
      hide Total, Named;
      NothingElsewhere(list[..|list| - 1], key);
      LastCounts(list, key);
    }
  }

  lemma {:induction false} SingleEntryIsTotal(list: seq<Entry>, i: nat)
    requires NoTwins(list) && i < |list|
    ensures Total(list, list[i].names) == list[i].f
  {
    hide Both;
    var n := |list| - 1;
    var front, key := list[..n], list[i].names;
    if i == n {
      assert forall j :: 0 <= j < n ==> front[j] == list[j];
      NothingElsewhere(front, key);
    } else {
      assert front[i] == list[i];
      SingleEntryIsTotal(front, i);
    }
    Regroup(list[i].f, NOTHING, NOTHING);
  }

  /** Each entry of the report is the sum of what all snapshots hold under its name, and no other has that name. */
  lemma ReportEntryIsSum(ts: seq<seq<Entry>>, i: nat)
    requires Snapshots(ts) && i < |Report(ts)|
    ensures var report := Report(ts);
            report[i].f == Sum(ts, report[i].names) && NoTwins(report)
  {
    hide Report, Both;
    ReportHasNoTwins(ts);
    SingleEntryIsTotal(Report(ts), i);
    ReportAddsUp(ts, Report(ts)[i].names);
  }

  // -------------------------------------------------------------------------
  // From the events of the nodes to the report

  function CallTables(nodes: seq<seq<Event>>): seq<seq<Entry>> {
    seq(|nodes|, i requires 0 <= i < |nodes| => Recorded(ByCall, nodes[i]))
  }

  function ClusterWork(kind: Kind, nodes: seq<seq<Event>>, key: Names): Figures {
    if nodes == [] then NOTHING
    else Both(ClusterWork(kind, nodes[..|nodes| - 1], key), Work(kind, nodes[|nodes| - 1], key))
  }

  lemma CallTablesFit(nodes: seq<seq<Event>>)
    ensures Snapshots(CallTables(nodes))
  {
    forall i | 0 <= i < |nodes| ensures AllFit(CallTables(nodes)[i]) { RecordingAddsUp(ByCall, nodes[i], Shard("", "")); }
  }

  lemma {:induction false} CallsSum(nodes: seq<seq<Event>>, key: Names)
    ensures Sum(CallTables(nodes), key) == ClusterWork(ByCall, nodes, key)
  {
    if nodes != [] {
      hide Both, Work, Total, Recorded;
      var n := |nodes| - 1;
      CallsSum(nodes[..n], key);
      RecordingAddsUp(ByCall, nodes[n], key);
      assert CallTables(nodes)[..n] == CallTables(nodes[..n]);
    }
  }

  /** The report gives a key just these figures: in total, and in its one entry if it has any. */
  ghost predicate Gives(report: seq<Entry>, key: Names, f: Figures) {
    Total(report, key) == f && NoTwins(report) && forall i :: 0 <= i < |report| && Named(report[i], key) ==> report[i].f == f
  }

  lemma ReportGives(ts: seq<seq<Entry>>, key: Names)
    requires Snapshots(ts)
    ensures Gives(Report(ts), key, Sum(ts, key))
  {
    hide Report, Sum, Total;
    ReportAddsUp(ts, key);
    ReportHasNoTwins(ts);
    forall i | 0 <= i < |Report(ts)| && Named(Report(ts)[i], key) ensures Report(ts)[i].f == Sum(ts, key) {
      ReportEntryIsSum(ts, i);
    }
  }

  /** Slow calls: under every name the report has the count, the time and the slowest call of all the nodes' events of
      that name, and it has an entry for each name under which anything happened on any node. */
  lemma CallsAreConserved(nodes: seq<seq<Event>>, key: Names)
    ensures Snapshots(CallTables(nodes))
    ensures Gives(Report(CallTables(nodes)), key, ClusterWork(ByCall, nodes, key))
    ensures Has(Report(CallTables(nodes)), key) <==> exists n :: 0 <= n < |nodes| && Happened(ByCall, nodes[n], key)
  {
    hide Report, Sum, Gives, Has, Happened, Recorded;
    CallTablesFit(nodes);
    var ts := CallTables(nodes);
    ReportGives(ts, key);
    CallsSum(nodes, key);
    ReportHas(ts, key);
    forall n | 0 <= n < |nodes| ensures ts[n] in ts && (Has(ts[n], key) <==> Happened(ByCall, nodes[n], key)) {
      RecordingHas(ByCall, nodes[n], key);
    }
  }

  /** A node: what happened on it, and the size of each of its shard files when it takes its snapshot. */
  datatype Host = Host(events: seq<Event>, size: Names -> nat)

  function ShardTables(hosts: seq<Host>): seq<seq<Entry>> {
    seq(|hosts|, i requires 0 <= i < |hosts| => Sized(Recorded(ByShard, hosts[i].events), hosts[i].size))
  }

  /** All the work of the hosts under a key, with the largest of their copies for a peak. */
  function HostWork(hosts: seq<Host>, key: Names): Figures {
    if hosts == [] then NOTHING
    else
      var h := hosts[|hosts| - 1];
      Both(HostWork(hosts[..|hosts| - 1], key),
           Work(ByShard, h.events, key).(peak := if Has(Recorded(ByShard, h.events), key) then h.size(key) else 0))
  }

  lemma {:induction false} SizedTotal(list: seq<Entry>, size: Names -> nat, key: Names)
    ensures Total(Sized(list, size), key) == Total(list, key).(peak := if Has(list, key) then size(key) else 0)
  {
    if list != [] {
      var n := |list| - 1;
      SizedTotal(list[..n], size, key);
      assert Sized(list, size)[..n] == Sized(list[..n], size);
      HasLast(list, key);
    }
  }

  lemma ShardTablesButLast(hosts: seq<Host>)
    requires hosts != []
    ensures var ts, n := ShardTables(hosts), |hosts| - 1;
            |ts| == n + 1 && ts[..n] == ShardTables(hosts[..n]) && ts[n] == Sized(Recorded(ByShard, hosts[n].events), hosts[n].size)
  {
  }

  lemma {:induction false} HostsSum(hosts: seq<Host>, key: Names)
    ensures Sum(ShardTables(hosts), key) == HostWork(hosts, key)
  {
    if hosts != [] {
      hide Both, Work, Has, Sized, Total, ShardTables, Recorded;
      var n := |hosts| - 1;
      HostsSum(hosts[..n], key);
      RecordingAddsUp(ByShard, hosts[n].events, key);
      SizedTotal(Recorded(ByShard, hosts[n].events), hosts[n].size, key);
      ShardTablesButLast(hosts);
    } else {
      assert ShardTables(hosts) == [];
    }
  }

  /** Shards: under every name the report has the counters of all the hosts' events and the size of the largest copy,
      and it has an entry for each shard with which anything happened on any host. */
  lemma WorkIsConserved(hosts: seq<Host>, key: Names)
    ensures Snapshots(ShardTables(hosts))
    ensures Gives(Report(ShardTables(hosts)), key, HostWork(hosts, key))
    ensures Has(Report(ShardTables(hosts)), key) <==> exists n :: 0 <= n < |hosts| && Happened(ByShard, hosts[n].events, key)
  {
    hide Report, Sum, Gives, Has, Happened, Recorded, Sized;
    ShardTablesFit(hosts);
    var ts := ShardTables(hosts);
    ReportGives(ts, key);
    HostsSum(hosts, key);
    ReportHas(ts, key);
    forall n | 0 <= n < |hosts| ensures ts[n] in ts && (Has(ts[n], key) <==> Happened(ByShard, hosts[n].events, key)) {
      SizedHas(Recorded(ByShard, hosts[n].events), hosts[n].size, key);
      RecordingHas(ByShard, hosts[n].events, key);
    }
  }

  lemma SizedHas(list: seq<Entry>, size: Names -> nat, key: Names)
    ensures Has(Sized(list, size), key) <==> Has(list, key)
  {
    var after := Sized(list, size);
    assert forall i :: 0 <= i < |list| ==> (Named(after[i], key) <==> Named(list[i], key));
  }

  lemma ShardTablesFit(hosts: seq<Host>)
    ensures Snapshots(ShardTables(hosts))
  {
    forall i | 0 <= i < |hosts| ensures AllFit(ShardTables(hosts)[i]) {
      RecordingAddsUp(ByShard, hosts[i].events, Shard("", ""));
      var list := Recorded(ByShard, hosts[i].events);
      assert forall j :: 0 <= j < |list| ==> ShardTables(hosts)[i][j].names == list[j].names;
    }
  }

  // The order of the snapshots

  lemma Pieces<T>(ts: seq<T>, j: nat)
    requires j < |ts|
    ensures var rest, n := ts[..j] + ts[j + 1..], |ts| - 1;
            j == n ==> rest == ts[..n]
    ensures var rest, n := ts[..j] + ts[j + 1..], |ts| - 1;
            j < n ==> |rest| == n && rest[..n - 1] == ts[..n][..j] + ts[..n][j + 1..] && rest[n - 1] == ts[n]
  {
  }

  lemma {:induction false} SumWithout(ts: seq<seq<Entry>>, j: nat, key: Names)
    requires j < |ts|
    ensures Sum(ts, key) == Both(Sum(ts[..j] + ts[j + 1..], key), Total(ts[j], key))
  {
    hide Both, Total;
    var n := |ts| - 1;
    Pieces(ts, j);
    if j < n {
      var rest := ts[..j] + ts[j + 1..];
      SumWithout(ts[..n], j, key);
      var x, y, z := Sum(rest[..n - 1], key), Total(ts[j], key), Total(ts[n], key);
      Regroup(x, y, z);
      Regroup(x, z, y);
      Regroup(y, z, x);
    }
  }

  lemma Drop<T>(a: multiset<T>, b: multiset<T>, x: T)
    requires a + multiset{x} == b + multiset{x}
    ensures a == b
  {
    assert a == a + multiset{x} - multiset{x} && b == b + multiset{x} - multiset{x};
  }

  lemma FoundAgain<T>(ts: seq<T>, us: seq<T>) returns (j: nat)
    requires ts != [] && multiset(ts) == multiset(us)
    ensures j < |us| && us[j] == ts[|ts| - 1]
    ensures multiset(ts[..|ts| - 1]) == multiset(us[..j] + us[j + 1..])
  {
    var n := |ts| - 1;
    var x := ts[n];
    assert ts == ts[..n] + [x] && x in multiset(ts) && x in us;
    j :| 0 <= j < |us| && us[j] == x;
    var rest := us[..j] + us[j + 1..];
    assert us == us[..j] + [x] + us[j + 1..];
    assert multiset(us) == multiset(us[..j]) + multiset{x} + multiset(us[j + 1..]);
    assert multiset(rest) == multiset(us[..j]) + multiset(us[j + 1..]);
    assert multiset(ts) == multiset(ts[..n]) + multiset{x};
    Drop(multiset(ts[..n]), multiset(rest), x);
  }

  lemma {:induction false} SumInAnyOrder(ts: seq<seq<Entry>>, us: seq<seq<Entry>>, key: Names)
    requires multiset(ts) == multiset(us)
    ensures Sum(ts, key) == Sum(us, key)
  {
    if ts == [] {
      assert |multiset(us)| == 0;
    } else {
      hide Both, Total;
      var n := |ts| - 1;
      var j := FoundAgain(ts, us);
      var rest := us[..j] + us[j + 1..];
      SumInAnyOrder(ts[..n], rest, key);
      SumWithout(us, j, key);
    }
  }

  /** In whatever order the snapshots are read, the report has the same names with the same figures. */
  lemma OrderOfSnapshotsDoesNotMatter(ts: seq<seq<Entry>>, us: seq<seq<Entry>>, key: Names)
    requires Snapshots(ts) && multiset(ts) == multiset(us)
    ensures Snapshots(us)
    ensures Has(Report(ts), key) <==> Has(Report(us), key)
    ensures Total(Report(ts), key) == Total(Report(us), key)
    ensures Gives(Report(us), key, Total(Report(ts), key))
  {
    hide AllFit, Report, Sum, Total, Has, NoTwins;
    SameMembers(ts, us);
    SameMembers(us, ts);
    forall i | 0 <= i < |us| ensures AllFit(us[i]) { assert us[i] in ts; }
    SumInAnyOrder(ts, us, key);
    ReportGives(ts, key);
    ReportGives(us, key);
    ReportHas(ts, key);
    ReportHas(us, key);
  }

  lemma SameMembers<T>(ts: seq<T>, us: seq<T>)
    requires multiset(ts) == multiset(us)
    ensures forall t :: t in ts ==> t in us
  {
    forall t | t in ts ensures t in us { assert t in multiset(ts); }
  }
}
