/** The state file: a map in memory that may run ahead of a file which is only ever replaced
    as a whole. */
module Store {
  import opened Records

  datatype Record = Record(jobId: int, runAttempt: int, progress: Progress, repo: string,
                           runnerName: string, runnerId: int, queuedAt: int, updatedAt: int)
  {
    function Key(): Key {
      Records.Key(jobId, runAttempt)
    }
  }

  /** Every entry is filed under its own key. */
  ghost predicate Keyed(m: map<Key, Record>) {
    forall k :: k in m ==> m[k].Key() == k
  }

  // ---------------------------------------------------------------- the list in the file

  predicate Less(a: Key, b: Key) {
    a.jobId < b.jobId || (a.jobId == b.jobId && a.runAttempt < b.runAttempt)
  }

  ghost predicate Sorted(list: seq<Record>) {
    forall i, j :: 0 <= i < j < |list| ==> Less(list[i].Key(), list[j].Key())
  }

  /** Reading back: a later record with the same key wins. */
  function FromList(list: seq<Record>): map<Key, Record> {
    if list == [] then map[]
    else
      var last := list[|list| - 1];
      FromList(list[..|list| - 1])[last.Key() := last]
  }

  /** `list` holds exactly the entries of `m`. */
  ghost predicate Covers(list: seq<Record>, m: map<Key, Record>) {
    && (forall r :: r in list ==> r.Key() in m && m[r.Key()] == r)
    && (forall k :: k in m ==> m[k] in list)
  }

  lemma {:induction false} FromListKeyed(list: seq<Record>)
    ensures Keyed(FromList(list))
    ensures forall k :: k in FromList(list) ==> FromList(list)[k] in list
    ensures forall r :: r in list ==> r.Key() in FromList(list)
  {
    if list != [] {
      FromListKeyed(list[..|list| - 1]);
      assert list == list[..|list| - 1] + [list[|list| - 1]];
    }
  }

  /** Reading what was written gives the map back. */
  lemma RoundTrip(list: seq<Record>, m: map<Key, Record>)
    requires Covers(list, m) && Keyed(m)
    ensures FromList(list) == m
  {
    FromListKeyed(list);
    forall k | k in m ensures k in FromList(list) && FromList(list)[k] == m[k] {
      assert m[k] in list && m[k].Key() == k;
    }
  }

  lemma SortedHead(a: seq<Record>, b: seq<Record>)
    requires Sorted(a) && Sorted(b) && a != [] && b != []
    requires forall r :: r in a <==> r in b
    ensures a[0] == b[0] && forall r :: r in a[1..] <==> r in b[1..]
  {
    assert a[0] in b && b[0] in a;
    assert Less(a[0].Key(), b[0].Key()) || Less(b[0].Key(), a[0].Key()) || a[0] == b[0];
    assert a == [a[0]] + a[1..] && b == [b[0]] + b[1..];
    forall r ensures r in a[1..] <==> r in b[1..] {
      assert r in a[1..] ==> r in a && r != a[0];
      assert r in b[1..] ==> r in b && r != b[0];
    }
  }

  lemma SomeMember(list: seq<Record>)
    ensures list != [] ==> exists r :: r in list
  {
    if list != [] {
      assert list[0] in list;
    }
  }

  lemma {:induction false} SortedSame(a: seq<Record>, b: seq<Record>)
    requires Sorted(a) && Sorted(b)
    requires forall r :: r in a <==> r in b
    ensures a == b
  {
    if a == [] {
      SomeMember(b);
    } else {
      assert a[0] in b;
      SortedHead(a, b);
      SortedSame(a[1..], b[1..]);
      assert a == [a[0]] + a[1..] && b == [b[0]] + b[1..];
    }
  }

  /** Hence the file depends on the records alone, not on the order in which the map is walked. */
  lemma Canonical(a: seq<Record>, b: seq<Record>, m: map<Key, Record>)
    requires Sorted(a) && Sorted(b) && Covers(a, m) && Covers(b, m)
    ensures a == b
  {
    forall r ensures r in a <==> r in b {
      if r in a {
        assert m[r.Key()] in b;
      }
      if r in b {
        assert m[r.Key()] in a;
      }
    }
    SortedSame(a, b);
  }

  // ---------------------------------------------------------------- the directory

  datatype Content = Garbage | Listed(list: seq<Record>)

  datatype File = File(content: Content, synced: bool)

  /** The state file, a temporary file beside it, and a corrupt one moved aside. The
      directory itself is never synced: until the system flushes it, a power loss may bring
      back any of the state files in `undone`. */
  datatype Dir = Dir(target: Option<File>, temp: Option<File>, corrupt: Option<File>, undone: set<Option<File>>)

  /** A power loss may leave anything in a file that was not synced; what it leaves is on disk. */
  ghost predicate CrashedFile(f: Option<File>, g: Option<File>) {
    match f
    case None => g.None?
    case Some(File(c, synced)) => g.Some? && g.value.synced && (synced ==> g.value.content == c)
  }

  ghost predicate PowerLoss(d: Dir, e: Dir) {
    && (exists f :: f in d.undone + {d.target} && CrashedFile(f, e.target))
    && CrashedFile(d.temp, e.temp) && e.undone == {}
  }

  function Contents(f: Option<File>): map<Key, Record> {
    if f.Some? && f.value.content.Listed? then FromList(f.value.content.list) else map[]
  }

  /** The records Open finds. */
  function Load(d: Dir): map<Key, Record> {
    Contents(d.target)
  }

  /** After a power loss Open may find `m`. */
  ghost predicate MayLoad(d: Dir, m: map<Key, Record>) {
    exists e :: PowerLoss(d, e) && Load(e) == m
  }

  ghost predicate Whole(f: Option<File>) {
    f.Some? ==> f.value.synced && f.value.content.Listed?
  }

  /** Whatever state file there is or comes back, it was written in full. */
  ghost predicate Intact(d: Dir) {
    Whole(d.target) && forall f :: f in d.undone ==> Whole(f)
  }

  /** `d` differs from `was` in temporary files at most. */
  ghost predicate Untouched(was: Dir, d: Dir) {
    d.target == was.target && d.undone == was.undone
  }

  /** ... or a synced file with the records `m` has taken the place of the state file. */
  ghost predicate Replaced(was: Dir, m: map<Key, Record>, d: Dir) {
    && d.target.Some? && Whole(d.target) && Contents(d.target) == m
    && d.undone == was.undone + {was.target}
  }

  /** The trail of a write of `m`, which a crash may cut anywhere. */
  ghost predicate Trail(passed: seq<Dir>, was: Dir, m: map<Key, Record>, now: Dir) {
    && passed != [] && passed[0] == was && passed[|passed| - 1] == now
    && forall d :: d in passed ==> Untouched(was, d) || Replaced(was, m, d)
  }

  /** A power loss on the trail of a write adds nothing but the new records to what a power
      loss before it could leave. */
  lemma CrashAtomic(passed: seq<Dir>, was: Dir, m: map<Key, Record>, now: Dir, d: Dir, found: map<Key, Record>)
    requires Trail(passed, was, m, now) && d in passed && MayLoad(d, found)
    ensures found == m || MayLoad(was, found)
  {
    var e :| PowerLoss(d, e) && Load(e) == found;
    var f :| f in d.undone + {d.target} && CrashedFile(f, e.target);
    if f in was.undone + {was.target} {
      var temp := if was.temp.None? then None else Some(File(was.temp.value.content, true));
      assert PowerLoss(was, e.(temp := temp));
    }
  }

  // ---------------------------------------------------------------- any history of the file

  datatype Episode =
    | Write(recs: map<Key, Record>, acked: bool, left: Dir)    // finished, failed or cut short
    | Loss(left: Dir)
    | Flush(left: Dir)                                         // the system syncs the directory

  ghost predicate Can(d: Dir, e: Episode) {
    match e
    case Write(m, acked, left) => Replaced(d, m, left) || (!acked && Untouched(d, left))
    case Loss(left) => PowerLoss(d, left)
    case Flush(left) => left == d.(undone := {})
  }

  ghost predicate Happens(d: Dir, es: seq<Episode>)
    decreases |es|
  {
    es != [] ==> Can(d, es[0]) && Happens(es[0].left, es[1..])
  }

  function Left(d: Dir, es: seq<Episode>): Dir {
    if es == [] then d else es[|es| - 1].left
  }

  /** One of the writes had just these records. */
  ghost predicate Wrote(es: seq<Episode>, m: map<Key, Record>) {
    exists e :: e in es && e.Write? && e.recs == m
  }

  /** The state file and those that may come back hold nothing that was not written as a whole. */
  ghost predicate Known(d: Dir, first: Dir, es: seq<Episode>) {
    && Intact(d)
    && forall f :: f in d.undone + {d.target} ==> f in first.undone + {first.target} || Wrote(es, Contents(f))
  }

  lemma WroteMore(es: seq<Episode>, e: Episode, m: map<Key, Record>)
    ensures Wrote(es, m) ==> Wrote(es + [e], m)
    ensures e.Write? && e.recs == m ==> Wrote(es + [e], m)
  {
    if Wrote(es, m) {
      var w :| w in es && w.Write? && w.recs == m;
      assert w in es + [e];
    }
    assert e in es + [e];
  }

  lemma KnownOn(d: Dir, first: Dir, es: seq<Episode>, e: Episode)
    requires Known(d, first, es) && Can(d, e)
    ensures Known(e.left, first, es + [e])
  {
    forall f | f in e.left.undone + {e.left.target}
      ensures Whole(f) && (f in first.undone + {first.target} || Wrote(es + [e], Contents(f)))
    {
      WroteMore(es, e, Contents(f));
      if e.Loss? {
        var g :| g in d.undone + {d.target} && CrashedFile(g, f);
        assert Whole(g) && g == f;
      }
    }
  }

  lemma {:induction false} KnownThroughout(first: Dir, past: seq<Episode>, es: seq<Episode>)
    requires Known(Left(first, past), first, past) && Happens(Left(first, past), es)
    ensures Known(Left(first, past + es), first, past + es)
    decreases |es|
  {
    if es == [] {
      assert past + es == past;
    } else {
      KnownOn(Left(first, past), first, past, es[0]);
      hide Known, Can;
      KnownThroughout(first, past + [es[0]], es[1..]);
      assert past + [es[0]] + es[1..] == past + es;
    }
  }

  /** Over any sequence of writes, failed or cut short anywhere, of flushes and of power
      losses, Open never finds a torn file: it reads the records it began with or those of
      one of the writes. */
  lemma NeverTorn(first: Dir, es: seq<Episode>)
    requires Intact(first) && first.undone == {} && Happens(first, es)
    ensures Intact(Left(first, es))
    ensures Load(Left(first, es)) == Load(first) || Wrote(es, Load(Left(first, es)))
  {
    assert [] + es == es;
    assert Left(first, []) == first;
    KnownThroughout(first, [], es);
  }

  /** The power losses in `es` bring no earlier state file back. */
  ghost predicate Onward(d: Dir, es: seq<Episode>)
    decreases |es|
  {
    es != [] ==> (es[0].Loss? ==> CrashedFile(d.target, es[0].left.target)) && Onward(es[0].left, es[1..])
  }

  /** ... and then an acknowledged write is never lost: Open finds it or a later one. */
  lemma {:induction false} AcknowledgedStays(d: Dir, m: map<Key, Record>, es: seq<Episode>)
    requires Whole(d.target) && Load(d) == m && Happens(d, es) && Onward(d, es)
    ensures Load(Left(d, es)) == m || Wrote(es, Load(Left(d, es)))
    decreases |es|
  {
    if es != [] {
      var e := es[0];
      AcknowledgedStays(e.left, Load(e.left), es[1..]);
      assert Left(e.left, es[1..]) == Left(d, es);
      assert es == [e] + es[1..];
      WroteAhead(e, es[1..], Load(Left(d, es)));
    }
  }

  lemma WroteAhead(e: Episode, es: seq<Episode>, m: map<Key, Record>)
    ensures Wrote(es, m) ==> Wrote([e] + es, m)
    ensures e.Write? && e.recs == m ==> Wrote([e] + es, m)
  {
    if Wrote(es, m) {
      var w :| w in es && w.Write? && w.recs == m;
      assert w in [e] + es;
    }
    assert e in [e] + es;
  }

  /** Without a flush nothing is certain: what Open finds after a power loss is settled exactly
      if every state file that may come back has the same records. */
  lemma SettledIff(d: Dir)
    requires Intact(d)
    ensures (forall m :: MayLoad(d, m) ==> m == Load(d)) <==> (forall f :: f in d.undone ==> Contents(f) == Load(d))
  {
    forall f | f in d.undone ensures MayLoad(d, Contents(f)) {
      var temp := if d.temp.None? then None else Some(File(d.temp.value.content, true));
      var e := Dir(f, temp, d.corrupt, {});
      assert CrashedFile(f, e.target);
      assert PowerLoss(d, e);
    }
    forall m | MayLoad(d, m) ensures m == Load(d) || exists f :: f in d.undone && Contents(f) == m {
      var e :| PowerLoss(d, e) && Load(e) == m;
      var f :| f in d.undone + {d.target} && CrashedFile(f, e.target);
      assert Whole(f) && f == e.target;
    }
  }

  /** Where a write of the file fails, if it does. */
  datatype Fault = Nowhere | AtCreate | AtWrite | AtSync | AtClose | AtRename

  datatype OpenFault = Readable | Unreadable | Immovable

  // ---------------------------------------------------------------- the store

  class StateStore {
    var recs: map<Key, Record>
    var dir: Dir
    ghost var passed: seq<Dir>             // every directory state the last write went through

    ghost predicate Valid()
      reads this
    {
      Keyed(recs)
    }

    ghost function Abstract(): Image<Record>
      reads this
    {
      Image(recs, Load(dir))
    }

    constructor (recs: map<Key, Record>, dir: Dir)
      ensures this.recs == recs && this.dir == dir
    {
      this.recs, this.dir, passed := recs, dir, [];
    }

    /** The records as a list sorted by key, one insertion at a time. */
    method SortedRecords() returns (list: seq<Record>)
      requires Valid()
      ensures Sorted(list) && Covers(list, recs)
    {
      list := [];
      var todo := recs.Keys;
      while todo != {}
        invariant todo <= recs.Keys
        invariant Sorted(list)
        invariant forall r :: r in list ==> r.Key() in recs.Keys - todo && recs[r.Key()] == r
        invariant forall k :: k in recs.Keys - todo ==> recs[k] in list
        decreases |todo|
      {
        var k :| k in todo;
        InsertSorted(list, recs[k]);
        list := Insert(list, recs[k]);
        todo := todo - {k};
      }
    }

    /** Writes a temporary file, syncs it and renames it over the state file. */
    method Persist(fault: Fault) returns (ok: bool)
      requires Valid()
      modifies `dir, `passed
      ensures Valid()
      ensures ok <==> fault == Nowhere
      ensures Load(dir) == if ok then recs else Load(old(dir))
      ensures if ok then Replaced(old(dir), recs, dir) else Untouched(old(dir), dir)
      ensures Trail(passed, old(dir), recs, dir)
    {
      passed := [dir];
      var list := SortedRecords();
      RoundTrip(list, recs);
      hide Sorted, Covers, Keyed;
      if fault == AtCreate {
        return false;
      }
      dir := dir.(temp := Some(File(Garbage, false)));
      passed := passed + [dir];
      if fault == AtWrite {
        dir := dir.(temp := None);
        passed := passed + [dir];
        return false;
      }
      dir := dir.(temp := Some(File(Listed(list), false)));
      passed := passed + [dir];
      if fault == AtSync {
        dir := dir.(temp := None);
        passed := passed + [dir];
        return false;
      }
      dir := dir.(temp := Some(File(Listed(list), true)));
      passed := passed + [dir];
      if fault == AtClose {
        dir := dir.(temp := None);
        passed := passed + [dir];
        return false;
      }
      if fault == AtRename {
        return false;
      }
      dir := dir.(target := dir.temp, temp := None, undone := dir.undone + {dir.target});
      passed := passed + [dir];
      ok := true;
    }

    method Upsert(rec: Record, now: int, fault: Fault) returns (ok: bool)
      requires Valid()
      modifies this
      ensures Valid()
      ensures ok <==> fault == Nowhere
      ensures Abstract() == old(Abstract()).Upsert(rec.Key(), rec.(updatedAt := now), ok)
      ensures Can(old(dir), Write(recs, ok, dir)) && forall d :: d in passed ==> Can(old(dir), Write(recs, false, d))
      ensures forall d, m :: d in passed && MayLoad(d, m) ==> MayLoad(old(dir), m) || m == recs
    {
      var stamped := rec.(updatedAt := now);
      recs := recs[stamped.Key() := stamped];
      ghost var was := dir;
      ok := Persist(fault);
      forall d, m | d in passed && MayLoad(d, m) ensures MayLoad(was, m) || m == recs {
        CrashAtomic(passed, was, recs, dir, d, m);
      }
    }

    method Delete(k: Key, fault: Fault) returns (ok: bool)
      requires Valid()
      modifies this
      ensures Valid()
      ensures ok <==> fault == Nowhere
      ensures Abstract() == old(Abstract()).Remove(k, ok)
      ensures Can(old(dir), Write(recs, ok, dir)) && forall d :: d in passed ==> Can(old(dir), Write(recs, false, d))
      ensures forall d, m :: d in passed && MayLoad(d, m) ==> MayLoad(old(dir), m) || m == recs
    {
      recs := recs - {k};
      ghost var was := dir;
      ok := Persist(fault);
      forall d, m | d in passed && MayLoad(d, m) ensures MayLoad(was, m) || m == recs {
        CrashAtomic(passed, was, recs, dir, d, m);
      }
    }

    method HasVm(id: VmId) returns (found: bool)
      ensures found <==> exists k :: k in recs && recs[k].progress.Holds(id)
    {
      var todo := recs.Keys;
      while todo != {}
        invariant todo <= recs.Keys
        invariant forall k :: k in recs.Keys - todo ==> !recs[k].progress.Holds(id)
        decreases |todo|
      {
        var k :| k in todo;
        if recs[k].progress.vm == Some(id) && !recs[k].progress.state.Terminal() {
          assert recs[k].progress.Holds(id);
          return true;
        }
        todo := todo - {k};
      }
      return false;
    }
  }

  function Insert(list: seq<Record>, r: Record): (out: seq<Record>)
    ensures forall x :: x in out <==> x in list || x == r
  {
    if list == [] || Less(r.Key(), list[0].Key()) then [r] + list
    else
      assert list == [list[0]] + list[1..];
      [list[0]] + Insert(list[1..], r)
  }

  lemma {:induction false} InsertSorted(list: seq<Record>, r: Record)
    requires Sorted(list) && forall x :: x in list ==> x.Key() != r.Key()
    ensures Sorted(Insert(list, r))
  {
    if list != [] && !Less(r.Key(), list[0].Key()) {
      InsertSorted(list[1..], r);
      var out := Insert(list[1..], r);
      forall i | 0 <= i < |out| ensures Less(list[0].Key(), out[i].Key()) {
        assert out[i] in list[1..] || out[i] == r;
      }
    }
  }

  /** Open: no file means no records, a corrupt file is moved aside and forgotten. */
  method Open(dir: Dir, fault: OpenFault) returns (r: Option<StateStore>)
    ensures r.None? <==> dir.target.Some? && (fault == Unreadable || (dir.target.value.content.Garbage? && fault == Immovable))
    ensures r.Some? ==> fresh(r.value) && r.value.Valid() && r.value.recs == Load(dir)
    ensures r.Some? && dir.target.Some? && dir.target.value.content.Garbage? ==>
              r.value.dir == dir.(target := None, corrupt := dir.target, undone := dir.undone + {dir.target})
    ensures r.Some? && !(dir.target.Some? && dir.target.value.content.Garbage?) ==> r.value.dir == dir
  {
    if dir.target.None? {
      var s := new StateStore(map[], dir);
      return Some(s);
    }
    if fault == Unreadable {
      return None;
    }
    if dir.target.value.content.Garbage? {
      if fault == Immovable {
        return None;
      }
      var s := new StateStore(map[], dir.(target := None, corrupt := dir.target, undone := dir.undone + {dir.target}));
      return Some(s);
    }
    var list := dir.target.value.content.list;
    var recs := map[];
    for n := 0 to |list|
      invariant recs == FromList(list[..n])
    {
      assert list[..n + 1][..n] == list[..n];
      recs := recs[list[n].Key() := list[n]];
    }
    assert list[..|list|] == list;
    FromListKeyed(list);
    var s := new StateStore(recs, dir);
    return Some(s);
  }

  // ---------------------------------------------------------------- what the protocol sees

  function Progresses(m: map<Key, Record>): map<Key, Progress> {
    map k | k in m :: m[k].progress
  }

  function View(i: Image<Record>): Image<Progress> {
    Image(Progresses(i.mem), Progresses(i.disk))
  }

  /** The store steps of the protocol are this store's operations. */
  lemma ViewCommutes(i: Image<Record>, k: Key, r: Record, ok: bool)
    ensures View(i.Upsert(k, r, ok)) == View(i).Upsert(k, r.progress, ok)
    ensures View(i.Remove(k, ok)) == View(i).Remove(k, ok)
    ensures View(i.Reopen()) == View(i).Reopen()
  {
  }
}
