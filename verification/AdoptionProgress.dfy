/** What adopting an earlier version does to durable progress: the pair (retry, rank) can fall
    behind a version that was stored before exactly if the first version that the adopted
    worker stores falls behind it. */
module AdoptionProgress {
  import opened Records
  import opened Protocol
  import opened Invariant
  import opened InvariantSteps
  import opened Runs
  import opened Adoption
  import opened StaleAdoption

  /** The earliest version that a worker with version `r` may store. */
  function First(r: Progress): Progress {
    match r.state
    case Queued => r.(state := Creating)
    case Creating => r
    case WaitReady => r.(state := Bootstrapping)
    case Bootstrapping => r
    case RunnerUp => r.(state := JobRunning)
    case JobRunning => r.(state := JobDone)
    case JobDone => r.(state := Deleting)
    case _ => r
  }

  /** Nothing that a worker with version `r` stores precedes `low`. */
  predicate Ahead(low: Progress, r: Progress) {
    NotAfter(low, First(r))
  }

  lemma AheadOn(low: Progress, r: Progress)
    requires NotAfter(low, r)
    ensures Ahead(low, r)
  {
    NotAfterTransitive(low, r, First(r));
  }

  predicate Asks(pc: Pc) {
    pc == Send || pc == Await || pc.GotVm? || pc == Refused || pc == Backoff
  }

  /** The worker will store nothing that precedes `low`. */
  ghost predicate Going(low: Progress, w: Worker) {
    w.pc != Exiting ==>
      !w.rec.state.Terminal() && Ahead(low, w.rec) && (Asks(w.pc) ==> w.rec.state == Creating)
  }

  /** No stored version of `k` precedes `low`, and its worker will store none that does. */
  ghost predicate Holding(s: Sys, k: Key, low: Progress) {
    && (k in s.store.mem ==> NotAfter(low, s.store.mem[k]))
    && (k in s.store.disk ==> NotAfter(low, s.store.disk[k]))
    && (k in s.workers ==> Going(low, s.workers[k]))
    && low.life < s.nextLife
  }

  /** An adoption or retirement of `k` stores nothing that precedes `low`. */
  ghost predicate Upward(m: Move, k: Key, low: Progress) {
    match m
    case Adopt(h, r) => h == k ==> Ahead(low, r)
    case Retire(h, r, _) => h == k ==> NotAfter(low, Finished(r))
    case _ => true
  }

  // ---------------------------------------------------------------- steps

  /** From `s` to `t` only the worker of `h` moved, and it may have stored its version. */
  ghost predicate Turned(s: Sys, t: Sys, h: Key, puts: Option<bool>) {
    && h in s.workers && h in t.workers && t.workers == s.workers[h := t.workers[h]]
    && t.store == Filed(s.store, h, t.workers[h].rec, puts) && t.nextLife == s.nextLife
  }

  lemma TurnHolds(s: Sys, t: Sys, h: Key, puts: Option<bool>, k: Key, low: Progress)
    requires Holding(s, k, low) && Turned(s, t, h, puts)
    requires h == k && puts.Some? ==> NotAfter(low, t.workers[k].rec)
    requires h == k ==> Going(low, t.workers[k])
    ensures Holding(t, k, low)
  {
    hide Going, NotAfter;
  }

  lemma QuietHolds(lim: Limits, s: Sys, a: Action, k: Key, low: Progress)
    requires Holding(s, k, low) && Quiet(a) && Enabled(lim, s, a)
    ensures Holding(Apply(lim, s, a), k, low)
  {
    QuietMoves(lim, s, a);
    hide Apply, Ahead, NotAfter;
    TurnHolds(s, Apply(lim, s, a), a.k, None, k, low);
  }

  lemma ClimbAhead(lim: Limits, s: Sys, a: Action, low: Progress)
    requires Climbs(a) && Enabled(lim, s, a) && a.k in s.workers
    requires !s.workers[a.k].rec.state.Terminal() && Ahead(low, s.workers[a.k].rec)
    ensures NotAfter(low, s.workers[a.k].rec.(state := ClimbState(a)))
  {
    var r := s.workers[a.k].rec;
    assert NotAfter(First(r), r.(state := ClimbState(a)));
    NotAfterTransitive(low, First(r), r.(state := ClimbState(a)));
  }

  lemma ClimbHolds(lim: Limits, s: Sys, a: Action, k: Key, low: Progress)
    requires Holding(s, k, low) && Climbs(a) && Enabled(lim, s, a)
    ensures Holding(Apply(lim, s, a), k, low)
  {
    ClimbMoves(lim, s, a);
    assert s.workers[a.k].pc != Exiting;
    var r := s.workers[a.k].rec.(state := ClimbState(a));
    if a.k == k {
      ClimbAhead(lim, s, a, low);
      AheadOn(low, r);
    }
    assert ClimbPc(a) == Exiting || !r.state.Terminal();
    hide Apply, Enabled, Ahead, NotAfter, Climbs, ClimbState, ClimbPc;
    TurnHolds(s, Apply(lim, s, a), a.k, Some(a.ok), k, low);
  }

  lemma RewriteAhead(lim: Limits, s: Sys, a: Action, low: Progress)
    requires Rewrites(a) && Enabled(lim, s, a)
    requires !s.workers[a.k].rec.state.Terminal() && Ahead(low, s.workers[a.k].rec)
    requires a.RecordVm? || a.FreshKey? ==> s.workers[a.k].rec.state == Creating
    ensures var t := Apply(lim, s, a);
            a.k in t.workers && !t.workers[a.k].rec.state.Terminal() && NotAfter(low, t.workers[a.k].rec)
  {
    var r, q := s.workers[a.k].rec, Apply(lim, s, a).workers[a.k].rec;
    hide Enabled, Apply;
    assert NotAfter(First(r), q);
    NotAfterTransitive(low, First(r), q);
  }

  lemma RewriteHolds(lim: Limits, s: Sys, a: Action, k: Key, low: Progress)
    requires Holding(s, k, low) && Rewrites(a) && Enabled(lim, s, a)
    ensures Holding(Apply(lim, s, a), k, low)
  {
    RewriteMoves(lim, s, a);
    var t := Apply(lim, s, a);
    RewritePc(lim, s, a);
    if a.k == k {
      RewriteAhead(lim, s, a, low);
      AheadOn(low, t.workers[k].rec);
    }
    hide Apply, Enabled, Ahead, NotAfter;
    TurnHolds(s, t, a.k, Some(a.ok), k, low);
  }

  lemma RewritePc(lim: Limits, s: Sys, a: Action)
    requires Rewrites(a) && Enabled(lim, s, a)
    ensures var t := Apply(lim, s, a);
            && a.k in s.workers && a.k in t.workers && t.nextLife == s.nextLife && s.workers[a.k].pc != Exiting
            && (a.RecordVm? || a.FreshKey? ==> Asks(s.workers[a.k].pc))
            && (Asks(t.workers[a.k].pc) ==> a.Enter? || a.FreshKey?)
            && (a.Enter? ==> t.workers[a.k].rec.state == Creating)
            && (a.FreshKey? ==> t.workers[a.k].rec.state == s.workers[a.k].rec.state)
  {
  }

  lemma DeleteHolds(lim: Limits, s: Sys, a: Action, k: Key, low: Progress)
    requires Holding(s, k, low) && a.TryDelete? && Enabled(lim, s, a)
    ensures Holding(Apply(lim, s, a), k, low)
  {
    DeleteTo(lim, s, a.k, a.acted, a.ok);
    hide Apply, Ahead, NotAfter;
    TurnHolds(s, Apply(lim, s, a), a.k, None, k, low);
  }

  lemma PostHolds(lim: Limits, s: Sys, h: Key, k: Key, low: Progress)
    requires Holding(s, k, low) && Enabled(lim, s, Post(h))
    ensures Holding(Apply(lim, s, Post(h)), k, low)
  {
    hide Ahead, NotAfter;
    TurnHolds(s, Apply(lim, s, Post(h)), h, None, k, low);
  }

  lemma LossHolds(lim: Limits, s: Sys, a: Action, k: Key, low: Progress)
    requires Holding(s, k, low) && (a.Exit? || a.Prune? || a.Crash?) && Enabled(lim, s, a)
    ensures Holding(Apply(lim, s, a), k, low)
  {
    hide Going, NotAfter;
  }

  lemma OutsideHolds(lim: Limits, s: Sys, a: Action, k: Key, low: Progress)
    requires Holding(s, k, low) && (Ambient(a) || a.Serve?) && Enabled(lim, s, a)
    ensures Holding(Apply(lim, s, a), k, low)
  {
    hide Going, NotAfter;
  }

  lemma StartHolds(lim: Limits, s: Sys, a: Action, k: Key, low: Progress)
    requires Holding(s, k, low) && (a.SubmitNew? || a.Spawn? || a.Close?) && Enabled(lim, s, a)
    ensures Holding(Apply(lim, s, a), k, low)
  {
    if a.k == k && k in s.store.mem {
      AheadOn(low, s.store.mem[k]);
      NotAfterTransitive(low, s.store.mem[k], Finished(s.store.mem[k]));
    }
    if a.SubmitNew? && a.k == k {
      AheadOn(low, Protocol.Fresh(s));
    }
    hide Ahead;
  }

  lemma StepHolds(lim: Limits, s: Sys, a: Action, k: Key, low: Progress)
    requires Holding(s, k, low) && Enabled(lim, s, a)
    ensures Holding(Apply(lim, s, a), k, low)
  {
    hide Holding, Enabled, Apply, Quiet, Climbs, Ambient;
    Kinds(a);
    if Quiet(a) {
      QuietHolds(lim, s, a, k, low);
    } else if Climbs(a) {
      ClimbHolds(lim, s, a, k, low);
    } else if Rewrites(a) {
      RewriteHolds(lim, s, a, k, low);
    } else if a.TryDelete? {
      DeleteHolds(lim, s, a, k, low);
    } else if a.Post? {
      PostHolds(lim, s, a.k, k, low);
    } else if a.SubmitNew? || a.Spawn? || a.Close? {
      StartHolds(lim, s, a, k, low);
    } else if a.Exit? || a.Prune? || a.Crash? {
      LossHolds(lim, s, a, k, low);
    } else {
      OutsideHolds(lim, s, a, k, low);
    }
  }

  lemma MoveHolds(lim: Limits, v: View, m: Move, k: Key, low: Progress)
    requires Holding(v.sys, k, low) && May(lim, v, m) && Upward(m, k, low)
    ensures Holding(Moved(lim, v, m).sys, k, low)
  {
    match m
    case Step(a) =>
      StepHolds(lim, v.sys, a, k, low);
      hide Holding, Enabled, Apply;
    case _ =>
      hide Ahead, NotAfter, Enabled, Apply;
  }

  ghost predicate AllUpward(run: seq<Move>, k: Key, low: Progress) {
    forall m :: m in run ==> Upward(m, k, low)
  }

  /** As long as every version of `k` that is adopted or retired is ahead of `low`, no version
      in memory or on disk falls behind `low`, over any run. */
  lemma {:induction false} RunHolds(lim: Limits, v: View, run: seq<Move>, k: Key, low: Progress)
    requires Holding(v.sys, k, low) && Legal(lim, v, run) && AllUpward(run, k, low)
    ensures Holding(End(lim, v, run).sys, k, low)
    decreases |run|
  {
    if run != [] {
      hide Holding, May, Moved, Upward;
      MoveHolds(lim, v, run[0], k, low);
      RunHolds(lim, Moved(lim, v, run[0]), run[1..], k, low);
    }
  }

  /** In a run of the protocol the file itself is such a bound. */
  lemma CurrentHolds(lim: Limits, s: Sys, k: Key)
    requires Inv(lim, s) && k in s.store.disk
    ensures Holding(s, k, s.store.disk[k])
  {
    var low := s.store.disk[k];
    assert Sound(lim, s, k, low);
    if Employed(s, k) {
      assert Standing(s, k, s.workers[k]);
      EmployedUnfinished(s, k);
      AheadOn(low, s.workers[k].rec);
    }
    hide Ahead;
  }

  // ---------------------------------------------------------------- falling behind

  /** Equal but for the key of a create. */
  predicate SameButKey(q: Progress, r: Progress) {
    q == r || (q.state == Creating && q.(idem := r.idem) == r)
  }

  lemma StillBehind(low: Progress, r: Progress, q: Progress)
    requires !Ahead(low, r) && SameButKey(q, First(r))
    ensures !NotAfter(low, q)
  {
  }

  /** The first storing step of a worker that was just given a slot. */
  function Storing(k: Key, r: Progress): Action
    requires r.state.HasMachine()
  {
    match r.state
    case WaitReady => Advance(k, Bootstrapping, true)
    case Bootstrapping => Save(k, true)
    case RunnerUp => Advance(k, JobRunning, true)
    case JobRunning => Advance(k, JobDone, true)
    case _ => Release(k, true)
  }

  lemma StoresFirst(lim: Limits, s: Sys, k: Key, r: Progress)
    requires Trying(s, k, r) && r.state.HasMachine()
    ensures Enabled(lim, s, Begin(k)) && Apply(lim, s, Begin(k)) == Goto(s, k, Work)
    ensures var u := Goto(s, k, Work);
            && Enabled(lim, u, Storing(k, r))
            && k in Apply(lim, u, Storing(k, r)).store.disk && Apply(lim, u, Storing(k, r)).store.disk[k] == First(r)
  {
  }

  lemma FirstWrite(lim: Limits, s: Sys, k: Key, r: Progress) returns (run: seq<Action>)
    requires Trying(s, k, r) && !r.state.Terminal()
    ensures Valid(lim, s, run)
    ensures k in After(lim, s, run).store.disk && SameButKey(After(lim, s, run).store.disk[k], First(r))
  {
    if r.state.Rank() <= 1 {
      run := [Enter(k, true)];
      assert run[1..] == [];
      assert After(lim, s, run) == Apply(lim, s, Enter(k, true));
    } else {
      var u := Goto(s, k, Work);
      StoresFirst(lim, s, k, r);
      hide Enabled, Apply, First;
      assert [Storing(k, r)][1..] == [];
      assert Valid(lim, u, [Storing(k, r)]) && After(lim, u, [Storing(k, r)]) == Apply(lim, u, Storing(k, r));
      Prepend(lim, s, Begin(k), [Storing(k, r)]);
      run := [Begin(k)] + [Storing(k, r)];
    }
  }

  /** Some continuation whose adoptions are all ahead of `low` leaves the file behind `low`. */
  ghost predicate CanFallBehind(lim: Limits, v: View, k: Key, low: Progress) {
    exists more :: Legal(lim, v, more) && AllUpward(more, k, low) && IsBehind(End(lim, v, more).sys, k, low)
  }

  predicate IsBehind(s: Sys, k: Key, low: Progress) {
    k in s.store.disk && !NotAfter(low, s.store.disk[k])
  }

  lemma WritesBehind(lim: Limits, s: Sys, k: Key, r: Progress, low: Progress) returns (run: seq<Action>)
    requires AllSane(s) && !s.cancelled && lim.maxVms > 0 && k in s.workers && s.workers[k] == Worker(r, WaitSlot)
    requires !Ahead(low, r) && !r.state.Terminal()
    ensures Valid(lim, s, run) && IsBehind(After(lim, s, run), k, low)
  {
    hide Enabled, Apply, Valid, After, AllSane, Ahead, SameButKey;
    var away := AllGoHome(lim, s);
    var s1 := After(lim, s, away);
    Taken(lim, s1, k, r);
    var s2 := After(lim, s1, [Acquire(k)]);
    var write := FirstWrite(lim, s2, k, r);
    StillBehind(low, r, After(lim, s2, write).store.disk[k]);
    Concat(lim, s1, [Acquire(k)], write);
    Concat(lim, s, away, [Acquire(k)] + write);
    run := away + ([Acquire(k)] + write);
  }

  lemma BehindIfNotAhead(lim: Limits, v: View, k: Key, r: Progress, low: Progress)
    requires Watched(lim, v) && May(lim, v, Adopt(k, r)) && !v.sys.cancelled && lim.maxVms > 0 && !Ahead(low, r)
    ensures CanFallBehind(lim, Moved(lim, v, Adopt(k, r)), k, low)
  {
    var t := Moved(lim, v, Adopt(k, r));
    WatchedSane(lim, v);
    assert Fit(lim, v.sys, k, r);
    assert AllSane(t.sys);
    hide Watched, Fit, AllSane, Ahead, May, Moved, Valid, After, Legal, End, Cautious, IsBehind;
    var run := WritesBehind(lim, t.sys, k, r, low);
    LiftedRun(lim, t, run);
    assert AllUpward(Lifted(run), k, low);
    assert Legal(lim, t, Lifted(run)) && IsBehind(End(lim, t, Lifted(run)).sys, k, low);
  }

  /** When an adoption undoes progress: with `low` a bound on everything stored of `k` so far,
      adopting a version read earlier lets the file fall behind `low` if and only if the first
      version that this worker stores is behind it. */
  lemma FallsBehindIffNotAhead(lim: Limits, past: seq<Move>, k: Key, r: Progress, low: Progress)
    requires Legal(lim, Start(), past) && Cautious(lim, Start(), past)
    requires May(lim, End(lim, Start(), past), Adopt(k, r)) && Holding(End(lim, Start(), past).sys, k, low)
    requires !End(lim, Start(), past).sys.cancelled && lim.maxVms > 0
    ensures CanFallBehind(lim, Moved(lim, End(lim, Start(), past), Adopt(k, r)), k, low) <==> !Ahead(low, r)
  {
    CautiousWatched(lim, past);
    var v := End(lim, Start(), past);
    hide Watched, May, Moved, Legal, End, Cautious, Holding, Ahead;
    if Ahead(low, r) {
      MoveHolds(lim, v, Adopt(k, r), k, low);
      NeverBehind(lim, Moved(lim, v, Adopt(k, r)), k, low);
    } else {
      BehindIfNotAhead(lim, v, k, r, low);
    }
  }

  lemma NeverBehind(lim: Limits, v: View, k: Key, low: Progress)
    requires Holding(v.sys, k, low)
    ensures !CanFallBehind(lim, v, k, low)
  {
    forall more | Legal(lim, v, more) && AllUpward(more, k, low) ensures !IsBehind(End(lim, v, more).sys, k, low) {
      RunHolds(lim, v, more, k, low);
    }
  }
}
