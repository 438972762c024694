/** Adoption as the program performs it: a sweep or a webhook reads a version of a record
    and spawns a worker with it later, whatever happened in between. `Spawn` and `Close` of
    the protocol act on the current version; here any version read since the process began
    may be acted on at any time. One VM per try survives exactly if no adopted version can
    still ask for a VM that an earlier request of the same try may have created. */
module Adoption {
  import opened Records
  import opened Protocol
  import opened Invariant
  import opened InvariantSteps
  import opened Safety
  import opened Runs

  /** The system and the versions its running process has read. */
  datatype View = View(sys: Sys, read: set<(Key, Progress)>)

  datatype Move =
    | Step(a: Action)                             // a step of the protocol
    | Look(k: Key)                                // Get, or List
    | Adopt(k: Key, r: Progress)                  // spawn with a version read earlier
    | Retire(k: Key, r: Progress, ok: bool)       // the sweep finishes a version read earlier

  predicate May(lim: Limits, v: View, m: Move) {
    match m
    case Step(a) => Enabled(lim, v.sys, a)
    case Look(k) => k in v.sys.store.mem
    case Adopt(k, r) => (k, r) in v.read && !r.state.Terminal() && k !in v.sys.workers
    case Retire(k, r, _) =>
      && (k, r) in v.read && (r.state == JobDone || r.state == Deleting) && v.sys.listing.Some?
      && (r.vm.Some? && r.vm.value in v.sys.listing.value ==> r.vm.value !in v.sys.live)
  }

  function Finished(r: Progress): Progress {
    r.(state := Complete)
  }

  function Adopted(s: Sys, k: Key, r: Progress): Sys {
    s.(workers := s.workers[k := Worker(r, WaitSlot)])
  }

  function Retired(s: Sys, k: Key, r: Progress, ok: bool): Sys {
    s.(store := s.store.Upsert(k, Finished(r), ok), durable := if ok then s.tracked else s.durable)
  }

  function Moved(lim: Limits, v: View, m: Move): View
    requires May(lim, v, m)
  {
    match m
    case Step(a) => View(Apply(lim, v.sys, a), if a.Crash? then {} else v.read)
    case Look(k) => v.(read := v.read + {(k, v.sys.store.mem[k])})
    case Adopt(k, r) => v.(sys := Adopted(v.sys, k, r))
    case Retire(k, r, ok) => v.(sys := Retired(v.sys, k, r, ok))
  }

  predicate Legal(lim: Limits, v: View, run: seq<Move>)
    decreases |run|
  {
    run != [] ==> May(lim, v, run[0]) && Legal(lim, Moved(lim, v, run[0]), run[1..])
  }

  function End(lim: Limits, v: View, run: seq<Move>): View
    requires Legal(lim, v, run)
    decreases |run|
  {
    if run == [] then v else End(lim, Moved(lim, v, run[0]), run[1..])
  }

  function Start(): View {
    View(Initial(), {})
  }

  // ---------------------------------------------------------------- prompt runs

  /** The version acted on is the current one. */
  predicate Current(v: View, m: Move) {
    match m
    case Adopt(k, r) => k in v.sys.store.mem && v.sys.store.mem[k] == r
    case Retire(k, r, _) => k in v.sys.store.mem && v.sys.store.mem[k] == r && k !in v.sys.workers
    case _ => true
  }

  predicate Prompt(lim: Limits, v: View, run: seq<Move>)
    requires Legal(lim, v, run)
    decreases |run|
  {
    run != [] ==> Current(v, run[0]) && Prompt(lim, Moved(lim, v, run[0]), run[1..])
  }

  function Actions(m: Move): seq<Action> {
    match m
    case Step(a) => [a]
    case Look(_) => []
    case Adopt(k, _) => [Spawn(k)]
    case Retire(k, _, ok) => [Close(k, ok)]
  }

  function AllActions(run: seq<Move>): seq<Action> {
    if run == [] then [] else Actions(run[0]) + AllActions(run[1..])
  }

  lemma PromptMove(lim: Limits, v: View, m: Move)
    requires May(lim, v, m) && Current(v, m)
    ensures Valid(lim, v.sys, Actions(m)) && After(lim, v.sys, Actions(m)) == Moved(lim, v, m).sys
  {
    match m
    case Step(a) =>
      assert [a][1..] == [];
    case Look(_) =>
    case Adopt(k, r) =>
      assert [Spawn(k)][1..] == [];
    case Retire(k, r, ok) =>
      assert [Close(k, ok)][1..] == [];
      assert Apply(lim, v.sys, Close(k, ok)) == Retired(v.sys, k, r, ok);
  }

  /** If every version acted on is current, the run is one of the protocol: whatever holds
      after every protocol run holds after it. */
  lemma {:induction false} PromptRunsAreRuns(lim: Limits, v: View, run: seq<Move>)
    requires Legal(lim, v, run) && Prompt(lim, v, run)
    ensures Valid(lim, v.sys, AllActions(run)) && After(lim, v.sys, AllActions(run)) == End(lim, v, run).sys
    decreases |run|
  {
    if run != [] {
      hide May, Moved, Enabled, Apply, Current;
      PromptMove(lim, v, run[0]);
      PromptRunsAreRuns(lim, Moved(lim, v, run[0]), run[1..]);
      Concat(lim, v.sys, Actions(run[0]), AllActions(run[1..]));
    }
  }

  // ---------------------------------------------------------------- the exact condition

  /** A worker with version `r` will not ask for a VM in the try of `i` except with `i`. */
  predicate Clear(r: Progress, i: IdemKey) {
    || r.state.Rank() >= 6
    || r.life != i.life
    || r.retry > i.retry
    || (r.retry == i.retry && r.state != Queued && (r.state == Creating ==> r.idem == Some(i)))
  }

  /** ... in no try in which an earlier request created a VM or still may. */
  ghost predicate Harmless(s: Sys, k: Key, r: Progress) {
    forall i :: Hot(s, i) && i.job == k ==> Clear(r, i)
  }

  ghost predicate Careful(v: View, m: Move) {
    m.Adopt? ==> Harmless(v.sys, m.k, m.r)
  }

  ghost predicate Cautious(lim: Limits, v: View, run: seq<Move>)
    requires Legal(lim, v, run)
    decreases |run|
  {
    run != [] ==> Careful(v, run[0]) && Cautious(lim, Moved(lim, v, run[0]), run[1..])
  }

  // ---------------------------------------------------------------- what careful moves keep

  /** `r` is the stored, the durable or the worker's version of `k`. */
  ghost predicate Kept(s: Sys, k: Key, r: Progress) {
    || (k in s.store.mem && s.store.mem[k] == r)
    || (k in s.store.disk && s.store.disk[k] == r)
    || (k in s.workers && s.workers[k].rec == r)
  }

  ghost predicate Fit(lim: Limits, s: Sys, k: Key, r: Progress) {
    && r.life < s.nextLife && r.retry <= lim.maxRetries
    && (r.state.HasMachine() ==> r.vm.Some?)
    && (r.state == Creating ==> r.idem.Some? && Mine(s, k, r, r.idem.value))
  }

  ghost predicate AllFit(lim: Limits, s: Sys) {
    forall k, r :: Kept(s, k, r) ==> Fit(lim, s, k, r)
  }

  ghost predicate AllClear(s: Sys) {
    forall k, r :: Kept(s, k, r) ==> Harmless(s, k, r)
  }

  ghost predicate Single(s: Sys) {
    forall i, j :: Hot(s, i) && Hot(s, j) && SameTry(i, j) ==> i == j
  }

  /** The version on its way to the server leaves no stored version that would ask anew. */
  ghost predicate Asking(s: Sys, k: Key, r: Progress) {
    && r.state == Creating && r.idem.Some?
    && (k in s.store.mem ==> Clear(s.store.mem[k], r.idem.value))
    && (k in s.store.disk ==> Clear(s.store.disk[k], r.idem.value))
  }

  ghost predicate Poised(s: Sys, k: Key, w: Worker) {
    match w.pc
    case WaitSlot => !w.rec.state.Terminal()
    case Dispatch => !w.rec.state.Terminal()
    case Send => Asking(s, k, w.rec)
    case Await => Asking(s, k, w.rec)
    case GotVm(_) => Asking(s, k, w.rec)
    case Refused => Asking(s, k, w.rec) && w.rec.idem.value in s.answers && s.answers[w.rec.idem.value] == Rejected
    case Backoff => Asking(s, k, w.rec)
    case Work => w.rec.state.HasMachine()
    case Cleanup(_, final) => w.rec.state.HasMachine() && (final || w.rec.state.Rank() <= 5)
    case Freed => true
    case Erred(_) => w.rec.state.Rank() <= 5
    case Pace => w.rec.state == Queued
    case Exiting => true
  }

  ghost predicate AllPoised(s: Sys) {
    forall k :: k in s.workers ==> Poised(s, k, s.workers[k])
  }

  ghost predicate Guarded(lim: Limits, s: Sys) {
    Wired(lim, s) && AllFit(lim, s) && AllClear(s) && Single(s) && AllPoised(s)
  }

  ghost predicate Watched(lim: Limits, v: View) {
    && Guarded(lim, v.sys)
    && forall k, r :: (k, r) in v.read ==> Fit(lim, v.sys, k, r)
  }

  // ---------------------------------------------------------------- steps without requests

  /** The network is untouched and the counters only grow. */
  ghost predicate Offline(s: Sys, t: Sys) {
    && t.sent == s.sent && t.answers == s.answers && t.made == s.made
    && t.live <= s.live && (t.older == s.older || t.older == s.made.Keys)
    && s.nextLife <= t.nextLife && s.nextNonce <= t.nextNonce
  }

  lemma OfflineKeeps(lim: Limits, s: Sys, t: Sys, k: Key, r: Progress)
    requires Guarded(lim, s) && Offline(s, t) && AllPoised(t)
    requires forall h, q :: Kept(t, h, q) ==> Kept(s, h, q) || (h == k && q == r)
    requires Fit(lim, t, k, r) && Harmless(s, k, r)
    ensures Guarded(lim, t)
  {
    assert forall i :: Hot(t, i) <==> Hot(s, i);
    forall h, q | Kept(t, h, q) ensures Fit(lim, t, h, q) && Harmless(t, h, q) {
      if h == k && q == r {
      } else {
        assert Kept(s, h, q);
        assert Fit(lim, s, h, q) && Harmless(s, h, q);
      }
    }
  }

  /** Every stored version of `h` was stored before or is past asking. */
  ghost predicate Settled(s: Sys, t: Sys, h: Key) {
    && (h in t.store.mem ==> Calm(s, h, t.store.mem[h]))
    && (h in t.store.disk ==> Calm(s, h, t.store.disk[h]))
  }

  ghost predicate Calm(s: Sys, h: Key, q: Progress) {
    || q.state.Rank() >= 6
    || (h in s.store.mem && s.store.mem[h] == q)
    || (h in s.store.disk && s.store.disk[h] == q)
  }

  lemma PoisedStays(s: Sys, t: Sys, h: Key, w: Worker)
    requires Poised(s, h, w) && Settled(s, t, h)
    requires forall i :: i in s.answers ==> i in t.answers && t.answers[i] == s.answers[i]
    ensures Poised(t, h, w)
  {
  }

  function Filed(m: Image<Progress>, k: Key, r: Progress, puts: Option<bool>): Image<Progress> {
    if puts.None? then m else m.Upsert(k, r, puts.value)
  }

  /** One worker moves on to version `r`, which it may store. */
  lemma TurnKeeps(lim: Limits, s: Sys, t: Sys, k: Key, r: Progress, pc: Pc, puts: Option<bool>)
    requires Guarded(lim, s) && Offline(s, t)
    requires t.workers == s.workers[k := Worker(r, pc)] && t.store == Filed(s.store, k, r, puts)
    requires Fit(lim, t, k, r) && Harmless(s, k, r) && Poised(t, k, Worker(r, pc))
    ensures Guarded(lim, t)
  {
    forall h | h in t.workers ensures Poised(t, h, t.workers[h]) {
      if h != k {
        assert Settled(s, t, h);
        PoisedStays(s, t, h, s.workers[h]);
      }
    }
    hide Poised, Fit, Harmless, Wired, Hot;
    OfflineKeeps(lim, s, t, k, r);
  }

  /** The version a worker has. */
  lemma Has(lim: Limits, s: Sys, k: Key)
    requires Guarded(lim, s) && k in s.workers
    ensures Fit(lim, s, k, s.workers[k].rec) && Harmless(s, k, s.workers[k].rec) && Poised(s, k, s.workers[k])
  {
    assert Kept(s, k, s.workers[k].rec);
  }

  lemma PauseKeeps(lim: Limits, s: Sys, a: Action)
    requires Guarded(lim, s) && Quiet(a) && Enabled(lim, s, a)
    ensures Guarded(lim, Apply(lim, s, a))
  {
    Has(lim, s, a.k);
    QuietMoves(lim, s, a);
    QuietPoised(lim, s, a);
    hide Enabled, Apply, Fit, Harmless, Guarded, Poised;
    TurnKeeps(lim, s, Goto(s, a.k, QuietPc(s, a)), a.k, s.workers[a.k].rec, QuietPc(s, a), None);
  }

  lemma QuietPoised(lim: Limits, s: Sys, a: Action)
    requires Quiet(a) && Enabled(lim, s, a) && Poised(s, a.k, s.workers[a.k]) && Fit(lim, s, a.k, s.workers[a.k].rec)
    ensures Poised(Goto(s, a.k, QuietPc(s, a)), a.k, Worker(s.workers[a.k].rec, QuietPc(s, a)))
  {
  }

  /** The worker's version is in order and harmless, and fits its position. */
  ghost predicate Steady(lim: Limits, s: Sys, t: Sys, k: Key, w: Worker) {
    Fit(lim, t, k, w.rec) && Harmless(s, k, w.rec) && Poised(t, k, w)
  }

  lemma AscentSteady(lim: Limits, s: Sys, a: Action)
    requires Climbs(a) && Enabled(lim, s, a) && Steady(lim, s, s, a.k, s.workers[a.k])
    ensures var t := Apply(lim, s, a);
            a.k in t.workers && Steady(lim, s, t, a.k, t.workers[a.k])
  {
    ClimbMoves(lim, s, a);
  }

  lemma AscentKeeps(lim: Limits, s: Sys, a: Action)
    requires Guarded(lim, s) && Climbs(a) && Enabled(lim, s, a)
    ensures Guarded(lim, Apply(lim, s, a))
  {
    ClimbMoves(lim, s, a);
    Has(lim, s, a.k);
    AscentSteady(lim, s, a);
    hide Enabled, Apply, Fit, Harmless, Guarded, Poised;
    TurnKeeps(lim, s, Apply(lim, s, a), a.k, s.workers[a.k].rec.(state := ClimbState(a)), ClimbPc(a), Some(a.ok));
  }

  predicate Rewrites(a: Action) {
    a.Enter? || a.FreshKey? || a.RecordVm? || a.Retry?
  }

  lemma KeySteady(lim: Limits, s: Sys, a: Action)
    requires (a.Enter? || a.FreshKey?) && Enabled(lim, s, a) && Steady(lim, s, s, a.k, s.workers[a.k])
    ensures var t := Apply(lim, s, a);
            a.k in t.workers && Steady(lim, s, t, a.k, t.workers[a.k])
  {
  }

  lemma TrySteady(lim: Limits, s: Sys, a: Action)
    requires (a.RecordVm? || a.Retry?) && Enabled(lim, s, a) && Steady(lim, s, s, a.k, s.workers[a.k])
    ensures var t := Apply(lim, s, a);
            a.k in t.workers && Steady(lim, s, t, a.k, t.workers[a.k])
  {
  }

  lemma RewriteSteady(lim: Limits, s: Sys, a: Action)
    requires Rewrites(a) && Enabled(lim, s, a) && Steady(lim, s, s, a.k, s.workers[a.k])
    ensures var t := Apply(lim, s, a);
            a.k in t.workers && Steady(lim, s, t, a.k, t.workers[a.k])
  {
    hide Enabled, Apply, Steady;
    if a.Enter? || a.FreshKey? {
      KeySteady(lim, s, a);
    } else {
      TrySteady(lim, s, a);
    }
  }

  lemma RewriteMoves(lim: Limits, s: Sys, a: Action)
    requires Rewrites(a) && Enabled(lim, s, a)
    ensures var t := Apply(lim, s, a);
            && a.k in s.workers && a.k in t.workers && Offline(s, t)
            && t.workers == s.workers[a.k := t.workers[a.k]] && t.store == s.store.Upsert(a.k, t.workers[a.k].rec, a.ok)
  {
  }

  lemma RewriteKeeps(lim: Limits, s: Sys, a: Action)
    requires Guarded(lim, s) && Rewrites(a) && Enabled(lim, s, a)
    ensures Guarded(lim, Apply(lim, s, a))
  {
    RewriteMoves(lim, s, a);
    Has(lim, s, a.k);
    RewriteSteady(lim, s, a);
    hide Enabled, Apply, Fit, Harmless, Guarded, Poised, Offline;
    var w := Apply(lim, s, a).workers[a.k];
    TurnKeeps(lim, s, Apply(lim, s, a), a.k, w.rec, w.pc, Some(a.ok));
  }

  lemma DeletingMoves(lim: Limits, s: Sys, a: Action)
    requires a.TryDelete? && Enabled(lim, s, a) && Steady(lim, s, s, a.k, s.workers[a.k])
    ensures var t := Apply(lim, s, a);
            && a.k in t.workers && Offline(s, t) && t.store == s.store
            && t.workers == s.workers[a.k := t.workers[a.k]] && t.workers[a.k].rec == s.workers[a.k].rec
            && Steady(lim, s, t, a.k, t.workers[a.k])
  {
    DeleteTo(lim, s, a.k, a.acted, a.ok);
    hide Apply, Hot;
  }

  lemma DeletingKeeps(lim: Limits, s: Sys, a: Action)
    requires Guarded(lim, s) && a.TryDelete? && Enabled(lim, s, a)
    ensures Guarded(lim, Apply(lim, s, a))
  {
    Has(lim, s, a.k);
    DeletingMoves(lim, s, a);
    hide Enabled, Apply, Fit, Harmless, Guarded, Poised, Offline;
    var w := Apply(lim, s, a).workers[a.k];
    TurnKeeps(lim, s, Apply(lim, s, a), a.k, w.rec, w.pc, None);
  }

  /** Nothing but the set of live VMs, the listing or the shutdown flag changes. */
  lemma StillKeeps(lim: Limits, s: Sys, a: Action)
    requires Guarded(lim, s) && Ambient(a) && Enabled(lim, s, a)
    ensures Guarded(lim, Apply(lim, s, a))
  {
    var t := Apply(lim, s, a);
    assert t.store == s.store && t.workers == s.workers && t.sent == s.sent && t.answers == s.answers;
    assert forall h, q :: Kept(t, h, q) <==> Kept(s, h, q);
    assert forall i :: Hot(t, i) <==> Hot(s, i);
    forall h | h in t.workers ensures Poised(t, h, t.workers[h]) {
      PoisedStays(s, t, h, s.workers[h]);
    }
    forall h, q | Kept(t, h, q) ensures Fit(lim, t, h, q) && Harmless(t, h, q) {
      assert Fit(lim, s, h, q) && Harmless(s, h, q);
    }
  }

  // ---------------------------------------------------------------- workers come and go

  /** A worker of `k` starts with a harmless version. */
  lemma StartKeeps(lim: Limits, s: Sys, k: Key, r: Progress)
    requires Guarded(lim, s) && Fit(lim, s, k, r) && Harmless(s, k, r) && !r.state.Terminal()
    ensures Guarded(lim, Adopted(s, k, r))
  {
    hide Wired;
    TurnKeeps(lim, s, Adopted(s, k, r), k, r, WaitSlot, None);
  }

  lemma LeaveKeeps(lim: Limits, s: Sys, t: Sys)
    requires Guarded(lim, s) && Offline(s, t)
    requires forall h :: h in t.workers ==> h in s.workers && t.workers[h] == s.workers[h]
    requires forall h :: Settled(s, t, h)
    requires forall h, q :: Kept(t, h, q) ==> Kept(s, h, q)
    ensures Guarded(lim, t)
  {
    forall h | h in t.workers ensures Poised(t, h, t.workers[h]) {
      PoisedStays(s, t, h, s.workers[h]);
    }
    assert forall i :: Hot(t, i) <==> Hot(s, i);
    forall h, q | Kept(t, h, q) ensures Fit(lim, t, h, q) && Harmless(t, h, q) {
      assert Fit(lim, s, h, q) && Harmless(s, h, q);
    }
  }

  // ---------------------------------------------------------------- the store without a worker

  /** Somebody other than its worker stores a version of `k` that is past asking. */
  lemma FileKeeps(lim: Limits, s: Sys, t: Sys, k: Key, r: Progress, ok: bool)
    requires Guarded(lim, s) && Offline(s, t) && t.workers == s.workers && t.store == s.store.Upsert(k, r, ok)
    requires Fit(lim, t, k, r) && r.state.Rank() >= 6
    ensures Guarded(lim, t)
  {
    forall h | h in t.workers ensures Poised(t, h, t.workers[h]) {
      assert Settled(s, t, h);
      PoisedStays(s, t, h, s.workers[h]);
    }
    hide Poised, Fit, Wired;
    OfflineKeeps(lim, s, t, k, r);
  }

  lemma NewKeeps(lim: Limits, s: Sys, k: Key, ok: bool)
    requires Guarded(lim, s) && Enabled(lim, s, SubmitNew(k, ok))
    ensures Guarded(lim, Apply(lim, s, SubmitNew(k, ok)))
  {
    var t := Apply(lim, s, SubmitNew(k, ok));
    var r := Fresh(s);
    forall h | h in t.workers ensures Poised(t, h, t.workers[h]) {
      if h != k {
        assert Settled(s, t, h);
        PoisedStays(s, t, h, s.workers[h]);
      }
    }
    assert Harmless(s, k, r);
    hide Poised, Wired;
    OfflineKeeps(lim, s, t, k, r);
  }

  lemma CloseHarmless(lim: Limits, s: Sys, k: Key, ok: bool)
    requires Guarded(lim, s) && Enabled(lim, s, Close(k, ok))
    ensures Guarded(lim, Apply(lim, s, Close(k, ok)))
  {
    var t := Apply(lim, s, Close(k, ok));
    assert Kept(s, k, s.store.mem[k]);
    assert Fit(lim, s, k, s.store.mem[k]);
    hide Enabled, Apply, Guarded;
    FileKeeps(lim, s, t, k, Finished(s.store.mem[k]), ok);
  }

  lemma LeavingKeeps(lim: Limits, s: Sys, a: Action)
    requires Guarded(lim, s) && (a.Exit? || a.Prune? || a.Crash?) && Enabled(lim, s, a)
    ensures Guarded(lim, Apply(lim, s, a))
  {
    var t := Apply(lim, s, a);
    assert Offline(s, t);
    assert forall h :: Settled(s, t, h);
    assert forall h, q :: Kept(t, h, q) ==> Kept(s, h, q);
    assert t.older != s.older ==> a.Crash?;
    hide Enabled, Apply, Guarded, Settled, Kept;
    LeaveKeeps(lim, s, t);
  }

  // ---------------------------------------------------------------- requests and answers

  lemma PostFacts(lim: Limits, s: Sys, k: Key)
    requires Guarded(lim, s) && Enabled(lim, s, Post(k))
    ensures var i := s.workers[k].rec.idem.value;
            && Mine(s, k, s.workers[k].rec, i) && Asking(s, k, s.workers[k].rec)
            && i.life < s.nextLife && i.retry <= lim.maxRetries
            && (forall j :: Hot(s, j) && SameTry(i, j) ==> i == j)
  {
    Has(lim, s, k);
  }

  lemma PostGuards(lim: Limits, s: Sys, k: Key)
    requires Guarded(lim, s) && Enabled(lim, s, Post(k))
    ensures Guarded(lim, Apply(lim, s, Post(k)))
  {
    PostFacts(lim, s, k);
    var i, r, t := s.workers[k].rec.idem.value, s.workers[k].rec, Apply(lim, s, Post(k));
    assert t == Goto(s.(sent := s.sent + {i}), k, Await);
    hide Enabled, Apply;
    assert forall j :: Hot(t, j) ==> Hot(s, j) || j == i;
    forall h | h in t.workers ensures Poised(t, h, t.workers[h]) {
      if h != k {
        PoisedStays(s, t, h, s.workers[h]);
      }
    }
    forall h, q | Kept(t, h, q) ensures Fit(lim, t, h, q) && Harmless(t, h, q) {
      assert Kept(s, h, q);
      assert Fit(lim, s, h, q) && Harmless(s, h, q);
      assert h == k ==> Clear(q, i);
    }
  }

  lemma ServeWired(lim: Limits, s: Sys, i: IdemKey, answer: Answer)
    requires Wired(lim, s) && Enabled(lim, s, Serve(i, answer))
    ensures Wired(lim, Apply(lim, s, Serve(i, answer)))
  {
  }

  lemma ServeGuards(lim: Limits, s: Sys, i: IdemKey, answer: Answer)
    requires Guarded(lim, s) && Enabled(lim, s, Serve(i, answer))
    ensures Guarded(lim, Apply(lim, s, Serve(i, answer)))
  {
    var t := Apply(lim, s, Serve(i, answer));
    assert forall j :: Hot(t, j) ==> Hot(s, j);
    assert t.store == s.store && t.workers == s.workers;
    ServeWired(lim, s, i, answer);
    hide Wired;
    forall h | h in t.workers ensures Poised(t, h, t.workers[h]) {
      PoisedStays(s, t, h, s.workers[h]);
    }
    forall h, q | Kept(t, h, q) ensures Fit(lim, t, h, q) && Harmless(t, h, q) {
      assert Kept(s, h, q);
      assert Fit(lim, s, h, q) && Harmless(s, h, q);
    }
  }

  // ---------------------------------------------------------------- every careful move

  lemma SpecialGuards(lim: Limits, s: Sys, a: Action)
    requires Guarded(lim, s) && Special(a) && Enabled(lim, s, a)
    ensures Guarded(lim, Apply(lim, s, a))
  {
    hide Guarded, Enabled, Apply;
    match a
    case SubmitNew(k, ok) => NewKeeps(lim, s, k, ok);
    case Spawn(k) => SpawnGuards(lim, s, k);
    case Post(k) => PostGuards(lim, s, k);
    case TryDelete(_, _, _) => DeletingKeeps(lim, s, a);
    case Close(k, ok) => CloseHarmless(lim, s, k, ok);
    case Serve(i, answer) => ServeGuards(lim, s, i, answer);
    case _ =>
      if Rewrites(a) {
        RewriteKeeps(lim, s, a);
      } else {
        LeavingKeeps(lim, s, a);
      }
  }

  lemma SpawnGuards(lim: Limits, s: Sys, k: Key)
    requires Guarded(lim, s) && Enabled(lim, s, Spawn(k))
    ensures Guarded(lim, Apply(lim, s, Spawn(k)))
  {
    assert Kept(s, k, s.store.mem[k]);
    assert Fit(lim, s, k, s.store.mem[k]) && Harmless(s, k, s.store.mem[k]);
    assert Apply(lim, s, Spawn(k)) == Adopted(s, k, s.store.mem[k]);
    hide Guarded, Apply, Adopted;
    StartKeeps(lim, s, k, s.store.mem[k]);
  }

  lemma StepGuards(lim: Limits, s: Sys, a: Action)
    requires Guarded(lim, s) && Enabled(lim, s, a)
    ensures Guarded(lim, Apply(lim, s, a))
  {
    hide Guarded, Enabled, Apply, Quiet, Climbs, Ambient, Special;
    Kinds(a);
    if Quiet(a) {
      PauseKeeps(lim, s, a);
    } else if Climbs(a) {
      AscentKeeps(lim, s, a);
    } else if Ambient(a) {
      StillKeeps(lim, s, a);
    } else {
      SpecialGuards(lim, s, a);
    }
  }

  lemma RetireGuards(lim: Limits, v: View, k: Key, r: Progress, ok: bool)
    requires Watched(lim, v) && May(lim, v, Retire(k, r, ok))
    ensures Guarded(lim, Retired(v.sys, k, r, ok))
  {
    assert Fit(lim, v.sys, k, r);
    hide Guarded;
    FileKeeps(lim, v.sys, Retired(v.sys, k, r, ok), k, Finished(r), ok);
  }

  lemma MoveGuards(lim: Limits, v: View, m: Move)
    requires Watched(lim, v) && May(lim, v, m) && Careful(v, m)
    ensures Guarded(lim, Moved(lim, v, m).sys)
  {
    match m
    case Step(a) =>
      hide Guarded, Enabled, Apply;
      StepGuards(lim, v.sys, a);
    case Look(_) =>
    case Adopt(k, r) =>
      assert Fit(lim, v.sys, k, r);
      hide Guarded;
      StartKeeps(lim, v.sys, k, r);
    case Retire(k, r, ok) =>
      RetireGuards(lim, v, k, r, ok);
  }

  /** Counters never go back. */
  lemma CountersGrow(lim: Limits, s: Sys, a: Action)
    requires Enabled(lim, s, a)
    ensures s.nextLife <= Apply(lim, s, a).nextLife && s.nextNonce <= Apply(lim, s, a).nextNonce
  {
    hide Enabled, Apply, Quiet, Climbs, Rewrites, Ambient, Special;
    if Quiet(a) {
      QuietMoves(lim, s, a);
    } else if Climbs(a) {
      ClimbMoves(lim, s, a);
    } else if Rewrites(a) {
      RewriteMoves(lim, s, a);
    } else if a.TryDelete? {
      DeleteTo(lim, s, a.k, a.acted, a.ok);
    } else {
      Kinds(a);
      OthersGrow(lim, s, a);
    }
  }

  lemma OthersGrow(lim: Limits, s: Sys, a: Action)
    requires Enabled(lim, s, a) && (Ambient(a) || Special(a)) && !Rewrites(a) && !a.TryDelete?
    ensures s.nextLife <= Apply(lim, s, a).nextLife && s.nextNonce <= Apply(lim, s, a).nextNonce
  {
  }

  lemma ReadStaysFit(lim: Limits, v: View, m: Move)
    requires Watched(lim, v) && May(lim, v, m)
    ensures forall k, r :: (k, r) in Moved(lim, v, m).read ==> Fit(lim, Moved(lim, v, m).sys, k, r)
  {
    match m
    case Step(a) =>
      CountersGrow(lim, v.sys, a);
      hide Enabled, Apply, Guarded;
    case Look(k) =>
      assert Kept(v.sys, k, v.sys.store.mem[k]);
    case _ =>
  }

  lemma MoveWatched(lim: Limits, v: View, m: Move)
    requires Watched(lim, v) && May(lim, v, m) && Careful(v, m)
    ensures Watched(lim, Moved(lim, v, m))
  {
    MoveGuards(lim, v, m);
    ReadStaysFit(lim, v, m);
    hide May, Moved, Guarded, Fit;
  }

  lemma {:induction false} RunWatched(lim: Limits, v: View, run: seq<Move>)
    requires Watched(lim, v) && Legal(lim, v, run) && Cautious(lim, v, run)
    ensures Watched(lim, End(lim, v, run))
    decreases |run|
  {
    if run != [] {
      hide Watched, May, Moved, Careful;
      MoveWatched(lim, v, run[0]);
      RunWatched(lim, Moved(lim, v, run[0]), run[1..]);
    }
  }

  lemma StartWatched(lim: Limits)
    ensures Watched(lim, Start())
  {
  }

  lemma CautiousWatched(lim: Limits, run: seq<Move>)
    requires Legal(lim, Start(), run) && Cautious(lim, Start(), run)
    ensures Watched(lim, End(lim, Start(), run))
  {
    StartWatched(lim);
    hide Watched, Start;
    RunWatched(lim, Start(), run);
  }

  /** While every adopted version is harmless, no try gets a second VM. */
  lemma AtMostOneVmWhileHarmless(lim: Limits, run: seq<Move>, v: VmId, w: VmId)
    requires Legal(lim, Start(), run) && Cautious(lim, Start(), run)
    requires v in End(lim, Start(), run).sys.made && w in End(lim, Start(), run).sys.made
    requires SameTry(End(lim, Start(), run).sys.made[v], End(lim, Start(), run).sys.made[w])
    ensures v == w
  {
    CautiousWatched(lim, run);
    var s := End(lim, Start(), run).sys;
    assert Hot(s, s.made[v]) && Hot(s, s.made[w]);
  }

  lemma VmsPerRecordWhileHarmless(lim: Limits, run: seq<Move>, k: Key, life: nat)
    requires Legal(lim, Start(), run) && Cautious(lim, Start(), run)
    ensures |VmsOf(End(lim, Start(), run).sys, k, life)| <= lim.maxRetries + 1
  {
    CautiousWatched(lim, run);
    var s := End(lim, Start(), run).sys;
    forall v, w | v in VmsOf(s, k, life) && w in VmsOf(s, k, life) && s.made[v].retry == s.made[w].retry
      ensures v == w
    {
      AtMostOneVmWhileHarmless(lim, run, v, w);
    }
    assert forall v :: v in VmsOf(s, k, life) ==> s.made[v] in s.sent;
    Pigeonhole(s.made, VmsOf(s, k, life), lim.maxRetries);
  }

  /** ... and no stored version would ask for one, in memory or on disk. */
  lemma SentKeyCoveredWhileHarmless(lim: Limits, run: seq<Move>, i: IdemKey)
    requires Legal(lim, Start(), run) && Cautious(lim, Start(), run)
    ensures var s := End(lim, Start(), run).sys;
            && (Hot(s, i) && i.job in s.store.mem ==> Clear(s.store.mem[i.job], i))
            && (Hot(s, i) && i.job in s.store.disk ==> Clear(s.store.disk[i.job], i))
  {
    CautiousWatched(lim, run);
    var s := End(lim, Start(), run).sys;
    assert i.job in s.store.mem ==> Kept(s, i.job, s.store.mem[i.job]);
    assert i.job in s.store.disk ==> Kept(s, i.job, s.store.disk[i.job]);
  }

  /** The current version is always harmless. */
  lemma {:induction false} PromptIsCautious(lim: Limits, v: View, run: seq<Move>)
    requires Watched(lim, v) && Legal(lim, v, run) && Prompt(lim, v, run)
    ensures Cautious(lim, v, run)
    decreases |run|
  {
    if run != [] {
      CurrentIsCareful(lim, v, run[0]);
      hide Watched, May, Moved, Careful, Current;
      MoveWatched(lim, v, run[0]);
      PromptIsCautious(lim, Moved(lim, v, run[0]), run[1..]);
    }
  }

  lemma CurrentIsCareful(lim: Limits, v: View, m: Move)
    requires Watched(lim, v) && Current(v, m)
    ensures Careful(v, m)
  {
    assert m.Adopt? ==> Kept(v.sys, m.k, m.r);
  }
}
