/**
 * The restore protocol: lock, wipe, push in chunks, unlock (src/epsilonbkup.c,
 * src/api/epsilon_api_cluster.c), against client and replication traffic that arrives at any
 * moment (src/api/epsilon_api.c).
 */
module Restore {
  import opened Strings

  /** The shard files of a node, its half-uploaded files, the lock and the setting that mirrors it. */
  datatype State = State(locked: bool, setting: bool, files: map<string, string>, tmp: map<string, string>)

  /** The system shards of a node, and which contents SQLite's integrity check passes. */
  datatype Rules = Rules(system: set<string>, sound: string -> bool)

  datatype Request = Lock | Unlock | Wipe | Upload(key: string, offset: int, body: string, last: bool)

  predicate Hex(c: char) { '0' <= c <= '9' || 'a' <= c <= 'f' }

  predicate ValidKey(key: string) {
    |key| == 32 && forall i :: 0 <= i < 32 ==> Hex(key[i])
  }

  predicate Accepts(r: Rules, key: string) { ValidKey(key) && key !in r.system }

  // -------------------------------------------------------------------------
  // The handlers

  function Zeros(n: nat): (z: string)
    ensures |z| == n
  {
    seq(n, _ => '\0')
  }

  /** pwrite: what a file holds after body is written at the offset. */
  function WriteAt(file: string, offset: nat, body: string): string {
    if body == "" then file
    else
      var padded := if offset > |file| then file + Zeros(offset - |file|) else file;
      padded[..offset] + body + (if offset + |body| < |padded| then padded[offset + |body|..] else "")
  }

  function SystemPart(r: Rules, files: map<string, string>): map<string, string> {
    map k | k in files && k in r.system :: files[k]
  }

  function DataPart(r: Rules, files: map<string, string>): map<string, string> {
    map k | k in files && k !in r.system :: files[k]
  }

  function Opened(s: State, key: string, offset: int): string {
    if offset == 0 || key !in s.tmp then "" else s.tmp[key]
  }

  function ServeUpload(r: Rules, s: State, key: string, offset: int, body: string, last: bool): (State, nat) {
    if !s.locked then (s, 409)
    else if !Accepts(r, key) then (s, 400)
    else
      var base := Opened(s, key, offset);
      if offset < 0 then (s.(tmp := s.tmp[key := base]), 500)
      else
        var file := WriteAt(base, offset, body);
        if !last then (s.(tmp := s.tmp[key := file]), 200)
        else if !r.sound(file) then (s.(tmp := s.tmp - {key}), 400)
        else (s.(tmp := s.tmp - {key}, files := s.files[key := file]), 200)
  }

  function Serve(r: Rules, s: State, q: Request): (State, nat) {
    match q
    case Lock => (s.(locked := true, setting := true), 200)
    case Unlock => (s.(locked := false, setting := false), 200)
    case Wipe => if s.locked then (s.(files := SystemPart(r, s.files)), 200) else (s, 409)
    case Upload(key, offset, body, last) => ServeUpload(r, s, key, offset, body, last)
  }

  /** Without the lock neither wiping nor uploading does anything: both answer 409. */
  lemma UnlockedIsRefused(r: Rules, s: State, key: string, offset: int, body: string, last: bool)
    requires !s.locked
    ensures Serve(r, s, Wipe) == (s, 409) && Serve(r, s, Upload(key, offset, body, last)) == (s, 409)
  {
  }

  /** Under it a key is refused, and nothing changes, exactly when it is that of a system shard or not 32 lower-case
      hexadecimal digits. */
  lemma KeyIsRefusedExactly(r: Rules, s: State, key: string, offset: int, body: string, last: bool)
    requires s.locked
    ensures key in r.system || |key| != 32 || (exists i :: 0 <= i < |key| && !('0' <= key[i] <= '9') && !('a' <= key[i] <= 'f'))
            <==> !Accepts(r, key)
    ensures !Accepts(r, key) ==> Serve(r, s, Upload(key, offset, body, last)) == (s, 400)
    ensures Accepts(r, key) && offset >= 0 && !last ==> Serve(r, s, Upload(key, offset, body, last)).1 == 200
  {
    if Accepts(r, key) {
      assert forall i :: 0 <= i < |key| ==> Hex(key[i]);
    }
  }

  /** A file that fails the integrity check is thrown away, and the one in place stays. */
  lemma UnsoundIsRefused(r: Rules, s: State, key: string, offset: nat, body: string)
    requires s.locked && Accepts(r, key) && !r.sound(WriteAt(Opened(s, key, offset), offset, body))
    ensures Serve(r, s, Upload(key, offset, body, true)) == (s.(tmp := s.tmp - {key}), 400)
  {
  }

  /** pwrite, byte by byte: the body at its offset, zeros in a gap, and else what was there. */
  lemma WriteAtIs(file: string, offset: nat, body: string, i: nat)
    requires body != "" && i < |WriteAt(file, offset, body)|
    ensures |WriteAt(file, offset, body)| == if offset + |body| < |file| then |file| else offset + |body|
    ensures WriteAt(file, offset, body)[i] ==
              if offset <= i < offset + |body| then body[i - offset] else if i < |file| then file[i] else '\0'
  {
  }

  function ServeAll(r: Rules, s: State, qs: seq<Request>): State {
    if qs == [] then s else Serve(r, ServeAll(r, s, qs[..|qs| - 1]), qs[|qs| - 1]).0
  }

  lemma {:induction false} ServeAllAppends(r: Rules, s: State, a: seq<Request>, b: seq<Request>)
    ensures ServeAll(r, s, a + b) == ServeAll(r, ServeAll(r, s, a), b)
  {
    if b == [] {
      assert a + b == a;
    } else {
      var n := |b| - 1;
      assert (a + b)[..|a + b| - 1] == a + b[..n];
      ServeAllAppends(r, s, a, b[..n]);
    }
  }

  class Node {
    var locked: bool
    var setting: bool
    var files: map<string, string>
    var tmp: map<string, string>

    ghost function Now(): State
      reads this
    {
      State(locked, setting, files, tmp)
    }

    method SetLocked(on: bool)
      modifies this
      ensures Now() == Serve(Rules({}, _ => true), old(Now()), if on then Lock else Unlock).0
    {
      locked, setting := on, on;
    }

    /** Collects the shard keys and drops every one that is not a system shard. */
    method WipeAll(r: Rules) returns (status: nat, wiped: nat)
      modifies this
      ensures (Now(), status) == Serve(r, old(Now()), Wipe)
      ensures wiped == |old(files)| - |files|
    {
      wiped := 0;
      if !locked { return 409, 0; }
      var todo := files.Keys;
      var was := files;
      while todo != {}
        invariant locked == old(locked) && setting == old(setting) && tmp == old(tmp)
        invariant todo <= was.Keys && files.Keys <= was.Keys && todo <= files.Keys
        invariant forall k :: k in files <==> k in was && (k in todo || k in r.system)
        invariant forall k :: k in files ==> files[k] == was[k]
        invariant wiped == |was| - |files|
        decreases |todo|
      {
        var key :| key in todo;
        todo := todo - {key};
        if key !in r.system {
          files := files - {key};
          wiped := wiped + 1;
        }
      }
      assert files == SystemPart(r, was);
      return 200, wiped;
    }

    method PutChunk(r: Rules, key: string, offset: int, body: string, last: bool) returns (status: nat)
      modifies this
      ensures (Now(), status) == Serve(r, old(Now()), Upload(key, offset, body, last))
    {
      if !locked { return 409; }
      if !Accepts(r, key) { return 400; }
      if offset == 0 || key !in tmp { tmp := tmp[key := ""]; }
      assert tmp == old(tmp)[key := Opened(old(Now()), key, offset)];
      if offset < 0 { return 500; }
      tmp := tmp[key := WriteAt(tmp[key], offset, body)];
      assert tmp == old(tmp)[key := WriteAt(Opened(old(Now()), key, offset), offset, body)];
      if !last { return 200; }
      if !r.sound(tmp[key]) {
        tmp := tmp - {key};
        assert tmp == old(tmp) - {key};
        return 400;
      }
      files := files[key := tmp[key]];
      tmp := tmp - {key};
      assert tmp == old(tmp) - {key};
      return 200;
    }

    /** A client write or a replicated change, whatever it does to the files: refused under the lock. */
    method Change(after: map<string, string>) returns (ok: bool)
      modifies this
      ensures ok == !old(locked) && Now() == Other(old(Now()), after)
    {
      if locked { return false; }
      files := after;
      return true;
    }
  }

  function Other(s: State, after: map<string, string>): State {
    if s.locked then s else s.(files := after)
  }

  // -------------------------------------------------------------------------
  // Pushing one file

  datatype Shard = Shard(key: string, content: string)

  /** The uploads that follow from an offset on; a refused first chunk ends them. */
  function Chunks(r: Rules, x: Shard, size: nat, offset: nat): seq<Request>
    requires size > 0
    decreases |x.content| - offset
  {
    if offset >= |x.content| then []
    else
      var got := if |x.content| - offset < size then |x.content| - offset else size;
      [Upload(x.key, offset, x.content[offset..offset + got], offset + got >= |x.content|)]
      + if Accepts(r, x.key) then Chunks(r, x, size, offset + got) else []
  }

  /** What a push needs in order to leave the file in place. */
  predicate Good(r: Rules, x: Shard) {
    Accepts(r, x.key) && x.content != "" && r.sound(x.content)
  }

  /** The state after a file has been pushed to a locked node. */
  function Pushed(r: Rules, s: State, x: Shard): State {
    if !Accepts(r, x.key) || x.content == "" then s
    else if r.sound(x.content) then s.(tmp := s.tmp - {x.key}, files := s.files[x.key := x.content])
    else s.(tmp := s.tmp - {x.key})
  }

  lemma NextChunk(r: Rules, s: State, x: Shard, offset: nat, got: nat)
    requires s.locked && Accepts(r, x.key) && 0 < got && offset + got <= |x.content|
    requires offset > 0 ==> x.key in s.tmp && s.tmp[x.key] == x.content[..offset]
    ensures var t := Serve(r, s, Upload(x.key, offset, x.content[offset..offset + got], offset + got >= |x.content|)).0;
            if offset + got < |x.content| then t == s.(tmp := s.tmp[x.key := x.content[..offset + got]])
            else t == Pushed(r, s, x)
  {
    var base := Opened(s, x.key, offset);
    assert base == x.content[..offset];
    assert WriteAt(base, offset, x.content[offset..offset + got]) == x.content[..offset + got];
    if offset + got == |x.content| { assert x.content[..offset + got] == x.content; }
  }

  /** The chunks from an offset on, after those before it, leave the whole file in place. */
  lemma {:induction false} ChunksPush(r: Rules, s: State, x: Shard, size: nat, offset: nat)
    requires size > 0 && s.locked && Accepts(r, x.key) && offset < |x.content|
    requires offset > 0 ==> x.key in s.tmp && s.tmp[x.key] == x.content[..offset]
    ensures ServeAll(r, s, Chunks(r, x, size, offset)) == Pushed(r, s, x)
    decreases |x.content| - offset
  {
    hide Serve, ServeAll, Pushed;
    var got := if |x.content| - offset < size then |x.content| - offset else size;
    var q := Upload(x.key, offset, x.content[offset..offset + got], offset + got >= |x.content|);
    var rest := Chunks(r, x, size, offset + got);
    FirstChunk(r, s, q, rest);
    NextChunk(r, s, x, offset, got);
    if offset + got < |x.content| {
      HalfDoesNotShow(r, s, x, x.content[..offset + got]);
      ChunksPush(r, s.(tmp := s.tmp[x.key := x.content[..offset + got]]), x, size, offset + got);
    } else {
      assert rest == [];
      ServeNone(r, Pushed(r, s, x));
    }
  }

  lemma FirstChunk(r: Rules, s: State, q: Request, rest: seq<Request>)
    ensures ServeAll(r, s, [q] + rest) == ServeAll(r, Serve(r, s, q).0, rest)
  {
    ServeOne(r, s, q);
    ServeAllAppends(r, s, [q], rest);
  }

  lemma HalfDoesNotShow(r: Rules, s: State, x: Shard, half: string)
    requires Accepts(r, x.key) && x.content != ""
    ensures Pushed(r, s.(tmp := s.tmp[x.key := half]), x) == Pushed(r, s, x)
  {
    assert s.tmp[x.key := half] - {x.key} == s.tmp - {x.key};
  }

  lemma ServeNone(r: Rules, s: State)
    ensures ServeAll(r, s, []) == s
  {
  }

  lemma ServeOne(r: Rules, s: State, q: Request)
    ensures ServeAll(r, s, [q]) == Serve(r, s, q).0
  {
    assert [q][..0] == [] && ServeAll(r, s, []) == s;
  }

  /** What a push sends: all the chunks, or just the first of them when the node refuses the key. */
  lemma PushLeaves(r: Rules, s: State, x: Shard, size: nat)
    requires size > 0 && s.locked
    ensures ServeAll(r, s, Chunks(r, x, size, 0)) == Pushed(r, s, x)
  {
    if x.content == "" {
      ServeNone(r, s);
    } else if Accepts(r, x.key) {
      ChunksPush(r, s, x, size, 0);
    } else {
      var q := Chunks(r, x, size, 0)[0];
      assert Chunks(r, x, size, 0) == [q];
      ServeOne(r, s, q);
    }
  }

  // -------------------------------------------------------------------------
  // The whole run as one node sees it

  function Pushes(r: Rules, shards: seq<Shard>, size: nat): seq<Request>
    requires size > 0
  {
    if shards == [] then [] else Pushes(r, shards[..|shards| - 1], size) + Chunks(r, shards[|shards| - 1], size, 0)
  }

  function Plan(r: Rules, shards: seq<Shard>, size: nat): seq<Request>
    requires size > 0
  {
    [Lock, Wipe] + Pushes(r, shards, size) + [Unlock]
  }

  /** The files of the backup that were put in place. */
  function Placed(r: Rules, shards: seq<Shard>): map<string, string> {
    if shards == [] then map[]
    else
      var before, x := Placed(r, shards[..|shards| - 1]), shards[|shards| - 1];
      if Good(r, x) then before[x.key := x.content] else before
  }

  lemma PlacedNext(r: Rules, s: State, shards: seq<Shard>, t: State)
    requires shards != [] && t.files == s.files + Placed(r, shards[..|shards| - 1])
    ensures Pushed(r, t, shards[|shards| - 1]).files == s.files + Placed(r, shards)
    ensures Pushed(r, t, shards[|shards| - 1]).locked == t.locked && Pushed(r, t, shards[|shards| - 1]).setting == t.setting
  {
    var p, x := Placed(r, shards[..|shards| - 1]), shards[|shards| - 1];
    assert (s.files + p)[x.key := x.content] == s.files + p[x.key := x.content];
  }

  lemma {:induction false} PushesLeave(r: Rules, s: State, shards: seq<Shard>, size: nat)
    requires size > 0 && s.locked
    ensures var t := ServeAll(r, s, Pushes(r, shards, size));
            t.locked && t.setting == s.setting && t.files == s.files + Placed(r, shards)
  {
    if shards == [] {
      ServeNone(r, s);
      assert s.files + map[] == s.files;
    } else {
      hide Placed, Pushed, ServeAll, Chunks;
      var front, x := shards[..|shards| - 1], shards[|shards| - 1];
      PushesLeave(r, s, front, size);
      var t := ServeAll(r, s, Pushes(r, front, size));
      ServeAllAppends(r, s, Pushes(r, front, size), Chunks(r, x, size, 0));
      PushLeaves(r, t, x, size);
      PlacedNext(r, s, shards, t);
    }
  }

  // -------------------------------------------------------------------------
  // Interleaving with other traffic

  datatype Event = Ask(request: Request) | Write(after: map<string, string>)

  function Step(r: Rules, s: State, e: Event): State {
    match e
    case Ask(q) => Serve(r, s, q).0
    case Write(after) => Other(s, after)
  }

  function Run(r: Rules, s: State, es: seq<Event>): State {
    if es == [] then s else Step(r, Run(r, s, es[..|es| - 1]), es[|es| - 1])
  }

  function Asked(es: seq<Event>): seq<Request> {
    if es == [] then []
    else Asked(es[..|es| - 1]) + if es[|es| - 1].Ask? then [es[|es| - 1].request] else []
  }

  /** Between lock and unlock other traffic leaves no trace. */
  lemma {:induction false} LockedRun(r: Rules, s: State, es: seq<Event>)
    requires s.locked && Unlock !in Asked(es)
    ensures Run(r, s, es) == ServeAll(r, s, Asked(es)) && Run(r, s, es).locked
  {
    if es != [] {
      var front, e := es[..|es| - 1], es[|es| - 1];
      LockedRun(r, s, front);
      if e.Ask? {
        assert (Asked(front) + [e.request])[..|Asked(front)|] == Asked(front);
        assert e.request in Asked(es);
      } else {
        assert Asked(front) + [] == Asked(front);
      }
    }
  }

  lemma {:induction false} RunAppends(r: Rules, s: State, a: seq<Event>, b: seq<Event>)
    ensures Run(r, s, a + b) == Run(r, Run(r, s, a), b) && Asked(a + b) == Asked(a) + Asked(b)
  {
    if b == [] {
      assert a + b == a && Asked(a) + [] == Asked(a);
    } else {
      var n := |b| - 1;
      assert (a + b)[..|a + b| - 1] == a + b[..n];
      RunAppends(r, s, a, b[..n]);
    }
  }

  /** Where the first request stands. */
  function FirstAsk(es: seq<Event>): (k: nat)
    ensures k <= |es| && (forall i :: 0 <= i < k ==> !es[i].Ask?) && (k < |es| ==> es[k].Ask?)
  {
    if es == [] || es[0].Ask? then 0 else 1 + FirstAsk(es[1..])
  }

  lemma {:induction false} NoneAsked(es: seq<Event>)
    requires forall i :: 0 <= i < |es| ==> !es[i].Ask?
    ensures Asked(es) == []
  {
    if es != [] { NoneAsked(es[..|es| - 1]); }
  }

  lemma {:induction false} NoUnlockInChunks(r: Rules, x: Shard, size: nat, offset: nat)
    requires size > 0
    ensures forall q :: q in Chunks(r, x, size, offset) ==> q.Upload?
    decreases |x.content| - offset
  {
    if offset < |x.content| {
      var got := if |x.content| - offset < size then |x.content| - offset else size;
      NoUnlockInChunks(r, x, size, offset + got);
    }
  }

  lemma {:induction false} PushesOnlyUpload(r: Rules, shards: seq<Shard>, size: nat)
    requires size > 0
    ensures forall q :: q in Pushes(r, shards, size) ==> q.Upload?
  {
    if shards != [] {
      PushesOnlyUpload(r, shards[..|shards| - 1], size);
      NoUnlockInChunks(r, shards[|shards| - 1], size, 0);
    }
  }

  /** Wiping and pushing, from a locked node: its system files and the backup's. */
  lemma WipeAndPush(r: Rules, s: State, shards: seq<Shard>, size: nat)
    requires size > 0 && s.locked
    ensures var t := ServeAll(r, s, [Wipe] + Pushes(r, shards, size));
            t.locked && t.files == SystemPart(r, s.files) + Placed(r, shards)
  {
    hide ServeAll, Placed;
    FirstChunk(r, s, Wipe, Pushes(r, shards, size));
    PushesLeave(r, s.(files := SystemPart(r, s.files)), shards, size);
  }

  lemma {:induction false} PlacedAreData(r: Rules, shards: seq<Shard>)
    ensures forall k :: k in Placed(r, shards) ==> k !in r.system
  {
    if shards != [] { PlacedAreData(r, shards[..|shards| - 1]); }
  }

  /**
   * A node at its unlock, when the requests it was sent make up the plan and anything at all came
   * between them: its system files are those it had when the lock came, and its data files are the
   * files of the backup that could be placed.
   */
  lemma RestoreLeavesBackup(r: Rules, s: State, es: seq<Event>, shards: seq<Shard>, size: nat)
    requires size > 0 && Asked(es) == Plan(r, shards, size) && es != [] && es[|es| - 1] == Ask(Unlock)
    ensures var start, end := Run(r, s, es[..FirstAsk(es)]), Run(r, s, es);
            && SystemPart(r, end.files) == SystemPart(r, start.files)
            && DataPart(r, end.files) == Placed(r, shards)
            && !end.locked && !end.setting
  {
    hide Run, Asked, Placed, Pushes;
    var k, n := FirstAsk(es), |es| - 1;
    SplitAtLock(r, es, shards, size);
    var before, mid := es[..k], es[k + 1..n];
    var start := Run(r, s, before);
    RunOfThree(r, s, before, Ask(Lock), mid, Ask(Unlock));
    assert es == before + [Ask(Lock)] + mid + [Ask(Unlock)];
    var held := Serve(r, start, Lock).0;
    PushesOnlyUpload(r, shards, size);
    LockedRun(r, held, mid);
    WipeAndPush(r, held, shards, size);
    PlacedAreData(r, shards);
    SystemAndData(r, start.files, Placed(r, shards));
  }

  lemma SystemAndData(r: Rules, files: map<string, string>, data: map<string, string>)
    requires forall k :: k in data ==> k !in r.system
    ensures SystemPart(r, SystemPart(r, files) + data) == SystemPart(r, files)
    ensures DataPart(r, SystemPart(r, files) + data) == data
  {
  }

  lemma RunOne(r: Rules, s: State, e: Event)
    ensures Run(r, s, [e]) == Step(r, s, e) && Asked([e]) == if e.Ask? then [e.request] else []
  {
    assert [e][..0] == [] && Run(r, s, []) == s && Asked([]) == [];
  }

  lemma RunOfThree(r: Rules, s: State, a: seq<Event>, e: Event, b: seq<Event>, f: Event)
    ensures Run(r, s, a + [e] + b + [f]) == Step(r, Run(r, Step(r, Run(r, s, a), e), b), f)
    ensures Asked(a + [e] + b + [f]) == Asked(a) + Asked([e]) + Asked(b) + Asked([f])
  {
    hide Step;
    RunAppends(r, s, a + [e] + b, [f]);
    RunAppends(r, s, a + [e], b);
    RunAppends(r, s, a, [e]);
    RunOne(r, Run(r, s, a), e);
    RunOne(r, Run(r, s, a + [e] + b), f);
  }

  lemma Cancel(x: Request, mid: seq<Request>, body: seq<Request>, y: Request)
    requires [x] + mid + [y] == [Lock] + body + [Unlock]
    ensures x == Lock && mid == body
  {
    var left, right := [x] + mid + [y], [Lock] + body + [Unlock];
    assert left[0] == x && right[0] == Lock;
    assert left[1..|left| - 1] == mid && right[1..|right| - 1] == body;
  }

  /** The plan's lock is the first request and its unlock the last event; the rest comes between. */
  lemma SplitAtLock(r: Rules, es: seq<Event>, shards: seq<Shard>, size: nat)
    requires size > 0 && Asked(es) == Plan(r, shards, size) && es != [] && es[|es| - 1] == Ask(Unlock)
    ensures var k, n := FirstAsk(es), |es| - 1;
            k < n && es[k] == Ask(Lock) && Asked(es[k + 1..n]) == [Wipe] + Pushes(r, shards, size)
  {
    hide Run, Asked, Pushes, Step, Serve, FirstAsk;
    var k, n := FirstAsk(es), |es| - 1;
    NoneAsked(es[..k]);
    if k < n {
      AskedAround(es, k);
      Cancel(es[k].request, Asked(es[k + 1..n]), [Wipe] + Pushes(r, shards, size), Unlock);
    } else {
      AskedLast(es);
    }
  }

  /** Nothing asked before k, something at k and at the end. */
  lemma AskedAround(es: seq<Event>, k: nat)
    requires k < |es| - 1 && es[k].Ask? && es[|es| - 1] == Ask(Unlock) && Asked(es[..k]) == []
    ensures Asked(es) == [es[k].request] + Asked(es[k + 1..|es| - 1]) + [Unlock]
  {
    hide Run, Asked, Step;
    var mid, r, s := es[k + 1..|es| - 1], Rules({}, _ => true), State(false, false, map[], map[]);
    assert es == es[..k] + [es[k]] + mid + [es[|es| - 1]];
    RunOfThree(r, s, es[..k], es[k], mid, es[|es| - 1]);
    RunOne(r, s, es[k]);
    RunOne(r, s, es[|es| - 1]);
  }

  lemma AskedLast(es: seq<Event>)
    requires es != [] && es[|es| - 1].Ask? && Asked(es[..|es| - 1]) == []
    ensures |Asked(es)| == 1
  {
    OneMoreAsked(es[..|es| - 1], es[|es| - 1]);
    assert es == es[..|es| - 1] + [es[|es| - 1]];
  }

  // -------------------------------------------------------------------------
  // When the backup is restored in full

  function Backup(shards: seq<Shard>): map<string, string> {
    if shards == [] then map[] else Backup(shards[..|shards| - 1])[shards[|shards| - 1].key := shards[|shards| - 1].content]
  }

  predicate DistinctKeys(shards: seq<Shard>) {
    forall i, j :: 0 <= i < j < |shards| ==> shards[i].key != shards[j].key
  }

  lemma {:induction false} KeysOf(r: Rules, shards: seq<Shard>)
    ensures forall i :: 0 <= i < |shards| ==> shards[i].key in Backup(shards)
    ensures forall k :: k in Placed(r, shards) ==> exists i :: 0 <= i < |shards| && shards[i].key == k && Good(r, shards[i])
  {
    if shards != [] {
      var front := shards[..|shards| - 1];
      KeysOf(r, front);
      forall i | 0 <= i < |shards| ensures shards[i].key in Backup(shards) {
        if i < |front| { assert front[i] == shards[i]; }
      }
      forall k | k in Placed(r, shards) ensures exists i :: 0 <= i < |shards| && shards[i].key == k && Good(r, shards[i]) {
        if k in Placed(r, front) {
          var i :| 0 <= i < |front| && front[i].key == k && Good(r, front[i]);
          assert shards[i] == front[i];
        }
      }
    }
  }

  lemma {:induction false} AllGoodAllPlaced(r: Rules, shards: seq<Shard>)
    requires forall i :: 0 <= i < |shards| ==> Good(r, shards[i])
    ensures Placed(r, shards) == Backup(shards)
  {
    if shards != [] { AllGoodAllPlaced(r, shards[..|shards| - 1]); }
  }

  /** Everything is restored exactly when every file has a valid data key, is not empty and is sound. */
  lemma FullyRestoredExactly(r: Rules, shards: seq<Shard>)
    requires DistinctKeys(shards)
    ensures Placed(r, shards) == Backup(shards) <==> forall i :: 0 <= i < |shards| ==> Good(r, shards[i])
  {
    KeysOf(r, shards);
    if forall i :: 0 <= i < |shards| ==> Good(r, shards[i]) {
      AllGoodAllPlaced(r, shards);
    } else {
      var i :| 0 <= i < |shards| && !Good(r, shards[i]);
      assert shards[i].key in Backup(shards);
      assert shards[i].key !in Placed(r, shards);
    }
  }

  // -------------------------------------------------------------------------
  // All the nodes

  function Gets(m: nat, qs: seq<Request>): seq<(nat, Request)> {
    seq(|qs|, i requires 0 <= i < |qs| => (m, qs[i]))
  }

  function EachGets(n: nat, qs: seq<Request>): seq<(nat, Request)> {
    if n == 0 then [] else EachGets(n - 1, qs) + Gets(n - 1, qs)
  }

  function PushesToAll(r: Rules, n: nat, shards: seq<Shard>, size: nat): seq<(nat, Request)>
    requires size > 0
  {
    if shards == [] then []
    else PushesToAll(r, n, shards[..|shards| - 1], size) + EachGets(n, Chunks(r, shards[|shards| - 1], size, 0))
  }

  /** cmd_restore over n online nodes: one phase after the other, shard by shard and node by node. */
  function WholePlan(r: Rules, n: nat, shards: seq<Shard>, size: nat): seq<(nat, Request)>
    requires size > 0
  {
    EachGets(n, [Lock]) + EachGets(n, [Wipe]) + PushesToAll(r, n, shards, size) + EachGets(n, [Unlock])
  }

  function For(qs: seq<(nat, Request)>, i: nat): seq<Request> {
    if qs == [] then [] else For(qs[..|qs| - 1], i) + if qs[|qs| - 1].0 == i then [qs[|qs| - 1].1] else []
  }

  lemma {:induction false} ForAppends(a: seq<(nat, Request)>, b: seq<(nat, Request)>, i: nat)
    ensures For(a + b, i) == For(a, i) + For(b, i)
  {
    if b == [] {
      assert a + b == a && For(a, i) + [] == For(a, i);
    } else {
      assert (a + b)[..|a + b| - 1] == a + b[..|b| - 1];
      ForAppends(a, b[..|b| - 1], i);
    }
  }

  lemma {:induction false} ForNode(qs: seq<Request>, m: nat, k: nat, i: nat)
    requires k <= |qs|
    ensures For(Gets(m, qs)[..k], i) == if m == i then qs[..k] else []
  {
    var all := Gets(m, qs);
    if k > 0 {
      ForNode(qs, m, k - 1, i);
      assert all[..k][..k - 1] == all[..k - 1] && qs[..k] == qs[..k - 1] + [qs[k - 1]];
    }
  }

  lemma ForGets(qs: seq<Request>, m: nat, i: nat)
    ensures For(Gets(m, qs), i) == if m == i then qs else []
  {
    ForNode(qs, m, |qs|, i);
    assert Gets(m, qs)[..|qs|] == Gets(m, qs) && qs[..|qs|] == qs;
  }

  lemma {:induction false} EachGetsOnce(n: nat, qs: seq<Request>, i: nat)
    ensures For(EachGets(n, qs), i) == if i < n then qs else []
  {
    hide For, Gets;
    if n == 0 {
      ForNone(i);
    } else {
      EachGetsOnce(n - 1, qs, i);
      ForAppends(EachGets(n - 1, qs), Gets(n - 1, qs), i);
      ForGets(qs, n - 1, i);
      assert [] + qs == qs && qs + [] == qs;
    }
  }

  lemma ForNone(i: nat)
    ensures For([], i) == []
  {
  }

  lemma {:induction false} NodeGetsPushes(r: Rules, n: nat, shards: seq<Shard>, size: nat, i: nat)
    requires size > 0 && i < n
    ensures For(PushesToAll(r, n, shards, size), i) == Pushes(r, shards, size)
  {
    if shards != [] {
      var front, qs := shards[..|shards| - 1], Chunks(r, shards[|shards| - 1], size, 0);
      NodeGetsPushes(r, n, front, size, i);
      ForAppends(PushesToAll(r, n, front, size), EachGets(n, qs), i);
      EachGetsOnce(n, qs, i);
    }
  }

  /** What the whole plan sends to one node is the plan for a node. */
  lemma NodeGetsPlan(r: Rules, n: nat, shards: seq<Shard>, size: nat, i: nat)
    requires size > 0 && i < n
    ensures For(WholePlan(r, n, shards, size), i) == Plan(r, shards, size)
  {
    var a, b, c, d := EachGets(n, [Lock]), EachGets(n, [Wipe]), PushesToAll(r, n, shards, size), EachGets(n, [Unlock]);
    ForAppends(a + b + c, d, i);
    ForAppends(a + b, c, i);
    ForAppends(a, b, i);
    EachGetsOnce(n, [Lock], i);
    EachGetsOnce(n, [Wipe], i);
    EachGetsOnce(n, [Unlock], i);
    NodeGetsPushes(r, n, shards, size, i);
    assert [Lock] + [Wipe] == [Lock, Wipe];
  }

  /** Something that happens at a node. */
  datatype At = At(node: nat, event: Event)

  function WorldRun(r: Rules, w: seq<State>, es: seq<At>): (v: seq<State>)
    ensures |v| == |w|
  {
    if es == [] then w
    else
      var v, e := WorldRun(r, w, es[..|es| - 1]), es[|es| - 1];
      if e.node < |w| then v[e.node := Step(r, v[e.node], e.event)] else v
  }

  function On(es: seq<At>, i: nat): seq<Event> {
    if es == [] then [] else On(es[..|es| - 1], i) + if es[|es| - 1].node == i then [es[|es| - 1].event] else []
  }

  /** All the requests, with the nodes they went to. */
  function Sent(es: seq<At>): seq<(nat, Request)> {
    if es == [] then []
    else Sent(es[..|es| - 1]) + if es[|es| - 1].event.Ask? then [(es[|es| - 1].node, es[|es| - 1].event.request)] else []
  }

  /** Each node runs on its own. */
  lemma {:induction false} NodesRunApart(r: Rules, w: seq<State>, es: seq<At>, i: nat)
    requires i < |w|
    ensures WorldRun(r, w, es)[i] == Run(r, w[i], On(es, i))
  {
    if es != [] {
      var front, e := es[..|es| - 1], es[|es| - 1];
      NodesRunApart(r, w, front, i);
      if e.node == i {
        assert (On(front, i) + [e.event])[..|On(front, i)|] == On(front, i);
      } else {
        assert On(front, i) + [] == On(front, i);
      }
    }
  }

  lemma OneMoreAsked(es: seq<Event>, e: Event)
    ensures Asked(es + [e]) == Asked(es) + if e.Ask? then [e.request] else []
  {
    assert (es + [e])[..|es|] == es;
  }

  lemma OneMoreFor(qs: seq<(nat, Request)>, q: (nat, Request), i: nat)
    ensures For(qs + [q], i) == For(qs, i) + if q.0 == i then [q.1] else []
  {
    assert (qs + [q])[..|qs|] == qs;
  }

  lemma {:induction false} SentTo(es: seq<At>, i: nat)
    ensures Asked(On(es, i)) == For(Sent(es), i)
  {
    if es != [] {
      var front, e := es[..|es| - 1], es[|es| - 1];
      SentTo(front, i);
      OneMoreAsked(On(front, i), e.event);
      assert On(front, i) + [] == On(front, i) && Asked(On(front, i)) + [] == Asked(On(front, i));
      if e.event.Ask? {
        OneMoreFor(Sent(front), (e.node, e.event.request), i);
      } else {
        assert Sent(front) + [] == Sent(front);
      }
    }
  }

  lemma {:induction false} SentPrefix(es: seq<At>, k: nat)
    requires k <= |es|
    ensures Sent(es[..k]) <= Sent(es)
  {
    if k < |es| {
      SentPrefix(es[..|es| - 1], k);
      assert es[..|es| - 1][..k] == es[..k];
    } else {
      assert es[..k] == es;
    }
  }

  lemma {:induction false} ForPrefix(a: seq<(nat, Request)>, b: seq<(nat, Request)>, i: nat)
    requires a <= b
    ensures For(a, i) <= For(b, i)
  {
    assert b == a + b[|a|..];
    ForAppends(a, b[|a|..], i);
  }

  lemma PlanEndsOnce(r: Rules, shards: seq<Shard>, size: nat, p: seq<Request>)
    requires size > 0 && p <= Plan(r, shards, size) && Unlock in p
    ensures p == Plan(r, shards, size)
  {
    PushesOnlyUpload(r, shards, size);
    var plan := Plan(r, shards, size);
    forall k | 0 <= k < |plan| - 1 ensures plan[k] != Unlock {
      if k >= 2 { assert plan[k] == Pushes(r, shards, size)[k - 2] && plan[k] in Pushes(r, shards, size); }
    }
    var j :| 0 <= j < |p| && p[j] == Unlock;
    assert plan[j] == Unlock && |p| == |plan|;
  }

  /**
   * The whole run. The tool sends its plan to n nodes, request by request; clients and other nodes
   * may do anything to any node between any two of them. At the moment a node is unlocked its data
   * files are those of the backup that can be placed, and its system files are those it had when
   * it was locked.
   */
  lemma EveryNodeIsRestored(r: Rules, w: seq<State>, es: seq<At>, shards: seq<Shard>, size: nat, j: nat)
    requires size > 0 && Sent(es) == WholePlan(r, |w|, shards, size)
    requires j < |es| && es[j].event == Ask(Unlock) && es[j].node < |w|
    ensures var i := es[j].node; var mine := On(es[..j + 1], i);
            var start, end := Run(r, w[i], mine[..FirstAsk(mine)]), WorldRun(r, w, es[..j + 1])[i];
            && DataPart(r, end.files) == Placed(r, shards)
            && SystemPart(r, end.files) == SystemPart(r, start.files)
            && !end.locked
  {
    hide Run, WorldRun, Plan, WholePlan, Placed;
    var i := es[j].node;
    var es' := es[..j + 1];
    var mine := On(es', i);
    assert es'[..j] == es[..j] && mine == On(es[..j], i) + [Ask(Unlock)];
    OneMoreAsked(On(es[..j], i), Ask(Unlock));
    SentTo(es', i);
    SentPrefix(es, j + 1);
    ForPrefix(Sent(es'), Sent(es), i);
    NodeGetsPlan(r, |w|, shards, size, i);
    PlanEndsOnce(r, shards, size, Asked(mine));
    NodesRunApart(r, w, es', i);
    RestoreLeavesBackup(r, w[i], mine, shards, size);
  }

  // -------------------------------------------------------------------------
  // The tool's loops

  /** One file to one node, chunk by chunk until something fails; an empty file needs no request at all. */
  method PushShard(r: Rules, node: Node, x: Shard, size: nat) returns (ok: bool)
    requires size > 0 && node.locked
    modifies node
    ensures node.Now() == ServeAll(r, old(node.Now()), Chunks(r, x, size, 0)) && node.locked
    ensures ok <==> x.content == "" || Good(r, x)
  {
    hide Serve, ServeAll;
    ok := true;
    var offset := 0;
    ghost var first := node.Now();
    ServeNone(r, first);
    while ok && offset < |x.content|
      invariant 0 <= offset <= |x.content| && node.locked
      invariant ServeAll(r, first, Chunks(r, x, size, 0)) == ServeAll(r, node.Now(), if ok then Chunks(r, x, size, offset) else [])
      invariant 0 < offset < |x.content| && ok ==> Accepts(r, x.key) && x.key in node.tmp && node.tmp[x.key] == x.content[..offset]
      invariant offset == |x.content| && ok ==> x.content == "" || Good(r, x)
      invariant !ok ==> x.content != "" && !Good(r, x)
      decreases ok, |x.content| - offset
    {
      var got := if |x.content| - offset < size then |x.content| - offset else size;
      var last := offset + got >= |x.content|;
      ghost var before := node.Now();
      FirstChunk(r, before, Upload(x.key, offset, x.content[offset..offset + got], last),
                 if Accepts(r, x.key) then Chunks(r, x, size, offset + got) else []);
      ChunkStatus(r, before, x, offset, got);
      var status := node.PutChunk(r, x.key, offset, x.content[offset..offset + got], last);
      if status != 200 {
        ok := false;
      } else {
        offset := offset + got;
      }
    }
    ServeNone(r, node.Now());
  }

  lemma ChunkStatus(r: Rules, s: State, x: Shard, offset: nat, got: nat)
    requires s.locked && 0 < got && offset + got <= |x.content|
    requires offset > 0 ==> Accepts(r, x.key) && x.key in s.tmp && s.tmp[x.key] == x.content[..offset]
    ensures var last := offset + got >= |x.content|;
            var (t, status) := Serve(r, s, Upload(x.key, offset, x.content[offset..offset + got], last));
            && t.locked
            && (status == 200 <==> Accepts(r, x.key) && (last ==> r.sound(x.content)))
            && (status == 200 && !last ==> x.key in t.tmp && t.tmp[x.key] == x.content[..offset + got])
  {
    if Accepts(r, x.key) {
      var base := Opened(s, x.key, offset);
      assert base == x.content[..offset];
      assert WriteAt(base, offset, x.content[offset..offset + got]) == x.content[..offset + got];
      if offset + got == |x.content| { assert x.content[..offset + got] == x.content; }
    }
  }

  predicate Distinct(nodes: seq<Node>) {
    forall i, j :: 0 <= i < j < |nodes| ==> nodes[i] != nodes[j]
  }

  method LockAll(r: Rules, nodes: seq<Node>)
    requires Distinct(nodes)
    modifies set n | n in nodes
    ensures forall i :: 0 <= i < |nodes| ==> nodes[i].locked && nodes[i].Now() == ServeAll(r, old(nodes[i].Now()), [Lock])
  {
    hide ServeAll;
    for k := 0 to |nodes|
      invariant forall i :: 0 <= i < k ==> nodes[i].locked && nodes[i].Now() == ServeAll(r, old(nodes[i].Now()), [Lock])
      invariant forall i :: k <= i < |nodes| ==> nodes[i].Now() == old(nodes[i].Now())
    {
      ServeOne(r, nodes[k].Now(), Lock);
      nodes[k].SetLocked(true);
    }
  }

  method WipeNodes(r: Rules, nodes: seq<Node>)
    requires Distinct(nodes) && forall i :: 0 <= i < |nodes| ==> nodes[i].locked
    modifies set n | n in nodes
    ensures forall i :: 0 <= i < |nodes| ==> nodes[i].locked && nodes[i].Now() == ServeAll(r, old(nodes[i].Now()), [Wipe])
  {
    hide ServeAll;
    for k := 0 to |nodes|
      invariant forall i :: 0 <= i < |nodes| ==> nodes[i].locked
      invariant forall i :: 0 <= i < k ==> nodes[i].Now() == ServeAll(r, old(nodes[i].Now()), [Wipe])
      invariant forall i :: k <= i < |nodes| ==> nodes[i].Now() == old(nodes[i].Now())
    {
      ServeOne(r, nodes[k].Now(), Wipe);
      var status, wiped := nodes[k].WipeAll(r);
    }
  }

  method PushToNodes(r: Rules, nodes: seq<Node>, x: Shard, size: nat) returns (failed: nat)
    requires size > 0 && Distinct(nodes) && forall i :: 0 <= i < |nodes| ==> nodes[i].locked
    modifies set n | n in nodes
    ensures forall i :: 0 <= i < |nodes| ==> nodes[i].locked && nodes[i].Now() == ServeAll(r, old(nodes[i].Now()), Chunks(r, x, size, 0))
    ensures failed == if x.content == "" || Good(r, x) then 0 else |nodes|
  {
    hide ServeAll, Chunks, Good;
    failed := 0;
    for k := 0 to |nodes|
      invariant failed == if x.content == "" || Good(r, x) then 0 else k
      invariant forall i :: 0 <= i < |nodes| ==> nodes[i].locked
      invariant forall i :: 0 <= i < k ==> nodes[i].Now() == ServeAll(r, old(nodes[i].Now()), Chunks(r, x, size, 0))
      invariant forall i :: k <= i < |nodes| ==> nodes[i].Now() == old(nodes[i].Now())
    {
      var ok := PushShard(r, nodes[k], x, size);
      if !ok { failed := failed + 1; }
    }
  }

  method UnlockAll(r: Rules, nodes: seq<Node>)
    requires Distinct(nodes)
    modifies set n | n in nodes
    ensures forall i :: 0 <= i < |nodes| ==> nodes[i].Now() == ServeAll(r, old(nodes[i].Now()), [Unlock])
  {
    hide ServeAll;
    for k := 0 to |nodes|
      invariant forall i :: 0 <= i < k ==> nodes[i].Now() == ServeAll(r, old(nodes[i].Now()), [Unlock])
      invariant forall i :: k <= i < |nodes| ==> nodes[i].Now() == old(nodes[i].Now())
    {
      ServeOne(r, nodes[k].Now(), Unlock);
      nodes[k].SetLocked(false);
    }
  }

  /** The phases, one after the other over all the nodes: each node is sent its plan. */
  method CmdRestore(r: Rules, nodes: seq<Node>, shards: seq<Shard>, size: nat) returns (failed: nat)
    requires size > 0 && Distinct(nodes)
    modifies set n | n in nodes
    ensures forall i :: 0 <= i < |nodes| ==> nodes[i].Now() == ServeAll(r, old(nodes[i].Now()), Plan(r, shards, size))
    ensures failed == 0 <==> nodes == [] || forall k :: 0 <= k < |shards| ==> shards[k].content == "" || Good(r, shards[k])
  {
    hide ServeAll, Chunks, Good, Pushes;
    LockAll(r, nodes);
    WipeNodes(r, nodes);
    forall i | 0 <= i < |nodes| ensures nodes[i].Now() == ServeAll(r, old(nodes[i].Now()), [Lock, Wipe]) {
      Then(r, old(nodes[i].Now()), [Lock], [Wipe]);
      assert [Lock] + [Wipe] == [Lock, Wipe];
    }
    failed := 0;
    NoPushes(r, size);
    for k := 0 to |shards|
      invariant forall i :: 0 <= i < |nodes| ==> nodes[i].locked
      invariant forall i :: 0 <= i < |nodes| ==>
                  nodes[i].Now() == ServeAll(r, old(nodes[i].Now()), [Lock, Wipe] + Pushes(r, shards[..k], size))
      invariant failed == 0 <==> nodes == [] || forall j :: 0 <= j < k ==> shards[j].content == "" || Good(r, shards[j])
    {
      var f := PushToNodes(r, nodes, shards[k], size);
      failed := failed + f;
      MorePushes(r, shards, k, size);
      forall i | 0 <= i < |nodes|
        ensures nodes[i].Now() == ServeAll(r, old(nodes[i].Now()), [Lock, Wipe] + Pushes(r, shards[..k + 1], size))
      {
        Then(r, old(nodes[i].Now()), [Lock, Wipe] + Pushes(r, shards[..k], size), Chunks(r, shards[k], size, 0));
      }
    }
    assert shards[..|shards|] == shards;
    UnlockAll(r, nodes);
    forall i | 0 <= i < |nodes| ensures nodes[i].Now() == ServeAll(r, old(nodes[i].Now()), Plan(r, shards, size)) {
      Then(r, old(nodes[i].Now()), [Lock, Wipe] + Pushes(r, shards, size), [Unlock]);
    }
  }

  lemma Then(r: Rules, s: State, a: seq<Request>, b: seq<Request>)
    ensures ServeAll(r, ServeAll(r, s, a), b) == ServeAll(r, s, a + b)
  {
    ServeAllAppends(r, s, a, b);
  }

  lemma NoPushes(r: Rules, size: nat)
    requires size > 0
    ensures Pushes(r, [], size) == [] && [Lock, Wipe] + [] == [Lock, Wipe]
  {
  }

  lemma MorePushes(r: Rules, shards: seq<Shard>, k: nat, size: nat)
    requires size > 0 && k < |shards|
    ensures [Lock, Wipe] + Pushes(r, shards[..k + 1], size)
         == [Lock, Wipe] + Pushes(r, shards[..k], size) + Chunks(r, shards[k], size, 0)
  {
    assert shards[..k + 1][..k] == shards[..k];
  }
}
