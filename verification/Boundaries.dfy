/** Where the guarantees end: a stale adoption really happens, every restart really adds a
    fleet, and a failing delete really leaves a VM behind a finished record. */
module Boundaries {
  import opened Records
  import opened Protocol
  import opened Invariant
  import opened Runs
  import opened Safety
  import opened Fleet
  import opened Adoption
  import opened StaleAdoption

  /** One VM creation without trouble. */
  function CreateRun(s: Sys, k: Key, v: VmId): seq<Action>
    requires k in s.workers
  {
    [Acquire(k), Enter(k, true), Post(k),
     Serve(Mint(s, k, s.workers[k].rec), Created(v)), Reply(k), RecordVm(k, true)]
  }

  function Created6(s: Sys, k: Key, v: VmId): Sys
    requires k in s.workers
  {
    var i := Mint(s, k, s.workers[k].rec);
    var r := s.workers[k].rec.(state := WaitReady, idem := Some(i), vm := Some(v));
    var m := s.store.mem[k := r];
    s.(store := Image(m, m), workers := s.workers[k := Worker(r, Work)], nextNonce := s.nextNonce + 1,
       sent := s.sent + {i}, answers := s.answers[i := Created(v)], made := s.made[v := i],
       live := s.live + {v}, tracked := s.tracked + {v}, durable := s.tracked + {v})
  }

  /** Halfway through `CreateRun`: the request is out. */
  function Posted3(s: Sys, k: Key): Sys
    requires k in s.workers
  {
    var i := Mint(s, k, s.workers[k].rec);
    var r := s.workers[k].rec.(state := Creating, idem := Some(i));
    var m := s.store.mem[k := r];
    s.(store := Image(m, m), workers := s.workers[k := Worker(r, Await)], nextNonce := s.nextNonce + 1,
       sent := s.sent + {i}, durable := s.tracked)
  }

  lemma FirstHalf(lim: Limits, s: Sys, k: Key) returns (s1: Sys, s2: Sys)
    requires At(s, k, WaitSlot) && s.workers[k].rec.state == Queued && |Slots(s)| < lim.maxVms && !s.cancelled
    ensures Does(lim, s, Acquire(k), s1) && Does(lim, s1, Enter(k, true), s2) && Does(lim, s2, Post(k), Posted3(s, k))
  {
    s1 := Apply(lim, s, Acquire(k));
    s2 := Apply(lim, s1, Enter(k, true));
    assert Apply(lim, s2, Post(k)) == Posted3(s, k);
  }

  function Served4(s: Sys, k: Key, v: VmId): Sys
    requires k in s.workers
  {
    var i := Mint(s, k, s.workers[k].rec);
    Posted3(s, k).(answers := s.answers[i := Created(v)], made := s.made[v := i], live := s.live + {v})
  }

  lemma Serving(lim: Limits, s: Sys, k: Key, v: VmId)
    requires k in s.workers && v !in s.made && Mint(s, k, s.workers[k].rec) !in s.answers
    ensures Does(lim, Posted3(s, k), Serve(Mint(s, k, s.workers[k].rec), Created(v)), Served4(s, k, v))
  {
  }

  lemma SecondHalf(lim: Limits, s: Sys, k: Key, v: VmId) returns (s5: Sys)
    requires k in s.workers
    ensures Does(lim, Served4(s, k, v), Reply(k), s5) && Does(lim, s5, RecordVm(k, true), Created6(s, k, v))
  {
    s5 := Apply(lim, Served4(s, k, v), Reply(k));
    assert s5 == Goto(Served4(s, k, v), k, GotVm(v));
    assert Apply(lim, s5, RecordVm(k, true)) == Created6(s, k, v);
  }

  /** Any queued worker with a slot to take can get a VM. */
  lemma CreateSucceeds(lim: Limits, s: Sys, k: Key, v: VmId)
    requires At(s, k, WaitSlot) && s.workers[k].rec.state == Queued && s.workers[k].rec.idem == None
    requires |Slots(s)| < lim.maxVms && !s.cancelled && v !in s.made
    requires Mint(s, k, s.workers[k].rec) !in s.answers
    ensures Valid(lim, s, CreateRun(s, k, v)) && After(lim, s, CreateRun(s, k, v)) == Created6(s, k, v)
  {
    var s1, s2 := FirstHalf(lim, s, k);
    Serving(lim, s, k, v);
    var s5 := SecondHalf(lim, s, k, v);
    hide Enabled, Apply, Posted3, Served4, Created6;
    Chain(lim, s, s1, s2, Posted3(s, k), Served4(s, k, v), s5, Created6(s, k, v), CreateRun(s, k, v));
  }

  lemma Chain(lim: Limits, s: Sys, s1: Sys, s2: Sys, s3: Sys, s4: Sys, s5: Sys, s6: Sys, run: seq<Action>)
    requires |run| == 6
    requires Enabled(lim, s, run[0]) && s1 == Apply(lim, s, run[0])
    requires Enabled(lim, s1, run[1]) && s2 == Apply(lim, s1, run[1])
    requires Enabled(lim, s2, run[2]) && s3 == Apply(lim, s2, run[2])
    requires Enabled(lim, s3, run[3]) && s4 == Apply(lim, s3, run[3])
    requires Enabled(lim, s4, run[4]) && s5 == Apply(lim, s4, run[4])
    requires Enabled(lim, s5, run[5]) && s6 == Apply(lim, s5, run[5])
    ensures Valid(lim, s, run) && After(lim, s, run) == s6
  {
    hide Enabled, Apply;
    Prepend(lim, s5, run[5], []);
    Prepend(lim, s4, run[4], run[5..]);
    assert [run[4]] + run[5..] == run[4..];
    Prepend(lim, s3, run[3], run[4..]);
    assert [run[3]] + run[4..] == run[3..];
    Prepend(lim, s2, run[2], run[3..]);
    assert [run[2]] + run[3..] == run[2..];
    Prepend(lim, s1, run[1], run[2..]);
    assert [run[1]] + run[2..] == run[1..];
    Prepend(lim, s, run[0], run[1..]);
    assert [run[0]] + run[1..] == run;
  }

  const A := Key(1, 1)

  function Submitted(k: Key): Sys {
    var m := map[k := Progress(0, 0, Queued, None, None)];
    Initial().(store := Image(m, m), workers := map[k := Worker(m[k], WaitSlot)], nextLife := 1)
  }

  /** After one submission and one creation. */
  lemma FirstVm(lim: Limits)
    requires lim.maxVms > 0
    ensures Valid(lim, Initial(), [SubmitNew(A, true)] + CreateRun(Submitted(A), A, "a"))
    ensures After(lim, Initial(), [SubmitNew(A, true)] + CreateRun(Submitted(A), A, "a")) == Created6(Submitted(A), A, "a")
  {
    var s := Submitted(A);
    assert Slots(s) == {};
    CreateSucceeds(lim, s, A, "a");
    assert Apply(lim, Initial(), SubmitNew(A, true)) == s;
    Prepend(lim, Initial(), SubmitNew(A, true), CreateRun(s, A, "a"));
  }

  lemma Extend(lim: Limits, run: seq<Action>, a: Action, s: Sys)
    requires Valid(lim, Initial(), run) && After(lim, Initial(), run) == s && Enabled(lim, s, a)
    ensures Valid(lim, Initial(), run + [a]) && After(lim, Initial(), run + [a]) == Apply(lim, s, a)
  {
    Append(lim, Initial(), run, a);
  }

  // ---------------------------------------------------------------- one fleet per process

  function Job(n: int): Key {
    Key(n, 1)
  }

  function Name(n: nat): (v: VmId)
    ensures |v| == n + 1
  {
    seq(n + 1, _ => 'x')
  }

  predicate Waiting(r: Progress, n: int) {
    n >= 0 && r.state == WaitReady && r.vm == Some(Name(n))
  }

  /** The jobs 0 .. total - 1 have a VM each, on disk as in memory; those below `up` have a
      worker, and `busy` workers hold a slot. */
  ghost predicate Manned(s: Sys, total: nat, up: nat, busy: nat) {
    && s.store.disk == s.store.mem && !s.cancelled && |Slots(s)| == busy
    && (forall k :: k in s.store.mem <==> 0 <= k.jobId < total && k == Job(k.jobId))
    && (forall k :: k in s.store.mem ==> Waiting(s.store.mem[k], k.jobId))
    && (forall k :: k in s.workers <==> 0 <= k.jobId < up && k == Job(k.jobId))
    && (forall v :: v in s.made ==> |v| <= total)
  }

  ghost predicate Reaches(lim: Limits, run: seq<Action>, s: Sys) {
    Valid(lim, Initial(), run) && After(lim, Initial(), run) == s
  }

  /** A job was submitted; its worker waits. */
  function Arrived(s: Sys, k: Key): Sys {
    var m := s.store.mem[k := Progress(s.nextLife, 0, Queued, None, None)];
    s.(store := Image(m, m), workers := s.workers[k := Worker(m[k], WaitSlot)], nextLife := s.nextLife + 1, durable := s.tracked)
  }

  lemma Arrival(lim: Limits, s: Sys, n: nat, busy: nat)
    requires Manned(s, n, n, busy)
    ensures Does(lim, s, SubmitNew(Job(n), true), Arrived(s, Job(n)))
    ensures var u := Arrived(s, Job(n));
            && Slots(u) == Slots(s) && Name(n) !in u.made && !u.cancelled
            && At(u, Job(n), WaitSlot) && u.workers[Job(n)].rec.state == Queued && u.workers[Job(n)].rec.idem == None
  {
  }

  lemma OneMoreSlot(s: Sys, t: Sys, k: Key, w: Worker)
    requires k !in s.workers && t.workers == s.workers[k := w] && w.pc != WaitSlot
    ensures |Slots(t)| == |Slots(s)| + 1
  {
    assert Slots(t) == Slots(s) + {k};
  }

  lemma Enlarged(s: Sys, t: Sys, n: nat, busy: nat, r: Progress, i: IdemKey)
    requires Manned(s, n, n, busy) && Waiting(r, n) && !t.cancelled
    requires t.store == Image(s.store.mem[Job(n) := r], s.store.mem[Job(n) := r])
    requires t.workers == s.workers[Job(n) := Worker(r, Work)] && t.made == s.made[Name(n) := i]
    ensures Manned(t, n + 1, n + 1, busy + 1)
  {
    hide Waiting, Name, Slots;
    OneMoreSlot(s, t, Job(n), Worker(r, Work));
  }

  lemma CreatedShape(s: Sys, n: nat)
    ensures var t := Created6(Arrived(s, Job(n)), Job(n), Name(n));
            && Job(n) in t.workers && t.restarts == s.restarts && t.cancelled == s.cancelled && Name(n) in t.made
            && var r := t.workers[Job(n)].rec;
            && Waiting(r, n)
            && t.store == Image(s.store.mem[Job(n) := r], s.store.mem[Job(n) := r])
            && t.workers == s.workers[Job(n) := Worker(r, Work)] && t.made == s.made[Name(n) := t.made[Name(n)]]
  {
  }

  /** One more job arrives and gets its VM. */
  lemma OneMore(lim: Limits, past: seq<Action>, s: Sys, n: nat, busy: nat) returns (run: seq<Action>, t: Sys)
    requires Reaches(lim, past, s) && Manned(s, n, n, busy) && busy < lim.maxVms
    ensures Reaches(lim, run, t) && Manned(t, n + 1, n + 1, busy + 1) && t.restarts == s.restarts
  {
    var k, u := Job(n), Arrived(s, Job(n));
    Arrival(lim, s, n, busy);
    CreatedShape(s, n);
    t := Created6(u, k, Name(n));
    Enlarged(s, t, n, busy, t.workers[k].rec, t.made[Name(n)]);
    assert |Slots(u)| == busy;
    hide Enabled, Apply, Created6, CreateRun, Manned, Arrived, Mint, Name, Slots;
    Extend(lim, past, SubmitNew(k, true), s);
    NewKey(lim, past + [SubmitNew(k, true)], u, k);
    CreateSucceeds(lim, u, k, Name(n));
    run := past + [SubmitNew(k, true)] + CreateRun(u, k, Name(n));
    Concat(lim, Initial(), past + [SubmitNew(k, true)], CreateRun(u, k, Name(n)));
  }

  /** A fresh key was never answered. */
  lemma NewKey(lim: Limits, past: seq<Action>, s: Sys, k: Key)
    requires Reaches(lim, past, s) && k in s.workers
    ensures Mint(s, k, s.workers[k].rec) !in s.answers
  {
    ReachedInv(lim, past);
  }

  lemma {:induction false} More(lim: Limits, past: seq<Action>, s: Sys, n: nat, busy: nat) returns (run: seq<Action>, t: Sys)
    requires Reaches(lim, past, s) && Manned(s, n, n, busy) && busy <= lim.maxVms
    ensures Reaches(lim, run, t) && Manned(t, n + lim.maxVms - busy, n + lim.maxVms - busy, lim.maxVms) && t.restarts == s.restarts
    decreases lim.maxVms - busy
  {
    hide Reaches, Manned;
    if busy == lim.maxVms {
      run, t := past, s;
    } else {
      run, t := OneMore(lim, past, s, n, busy);
      run, t := More(lim, run, t, n + 1, busy + 1);
    }
  }

  /** After a crash every record gets a worker again, and none a slot yet. */
  lemma {:induction false} Resumes(lim: Limits, past: seq<Action>, s: Sys, n: nat, up: nat) returns (run: seq<Action>, t: Sys)
    requires Reaches(lim, past, s) && Manned(s, n, up, 0) && up <= n
    ensures Reaches(lim, run, t) && Manned(t, n, n, 0) && t.restarts == s.restarts
    decreases n - up
  {
    if up == n {
      run, t := past, s;
    } else {
      var u := Apply(lim, s, Spawn(Job(up)));
      Extend(lim, past, Spawn(Job(up)), s);
      assert Slots(u) == Slots(s);
      hide Enabled, Apply;
      run, t := Resumes(lim, past + [Spawn(Job(up))], u, n, up + 1);
    }
  }

  lemma Restart(lim: Limits, past: seq<Action>, s: Sys, n: nat, busy: nat) returns (run: seq<Action>, t: Sys)
    requires Reaches(lim, past, s) && Manned(s, n, n, busy)
    ensures Reaches(lim, run, t) && Manned(t, n, n, 0) && t.restarts == s.restarts + 1
  {
    var u := Apply(lim, s, Crash);
    Extend(lim, past, Crash, s);
    assert Slots(u) == {};
    hide Enabled, Apply;
    run, t := Resumes(lim, past + [Crash], u, n, 0);
  }

  lemma NoneYet(lim: Limits)
    ensures Reaches(lim, [], Initial()) && Manned(Initial(), 0, 0, 0) && Cap(lim, 0) == 0
  {
    assert Slots(Initial()) == {};
  }

  lemma {:induction false} Fleets(lim: Limits, n: nat) returns (run: seq<Action>, t: Sys)
    ensures Reaches(lim, run, t) && Manned(t, Cap(lim, n + 1), Cap(lim, n + 1), lim.maxVms) && t.restarts == n
  {
    CapGrows(lim, n);
    if n == 0 {
      NoneYet(lim);
      hide Reaches, Manned;
      run, t := More(lim, [], Initial(), 0, 0);
    } else {
      hide Reaches, Manned;
      run, t := Fleets(lim, n - 1);
      run, t := Restart(lim, run, t, Cap(lim, n), lim.maxVms);
      run, t := More(lim, run, t, Cap(lim, n), 0);
    }
  }

  function Names(n: nat): set<VmId> {
    if n == 0 then {} else Names(n - 1) + {Name(n - 1)}
  }

  lemma {:induction false} NameIn(n: nat, v: VmId)
    ensures v in Names(n) <==> 1 <= |v| <= n && v == Name(|v| - 1)
  {
    hide Name;
    if n > 0 {
      NameIn(n - 1, v);
    }
  }

  lemma {:induction false} NamesCount(n: nat)
    ensures |Names(n)| == n
  {
    hide Name;
    if n > 0 {
      NamesCount(n - 1);
      NameIn(n - 1, Name(n - 1));
    }
  }

  lemma FleetHolds(s: Sys, n: nat)
    requires forall k :: k in s.store.mem <==> 0 <= k.jobId < n && k == Job(k.jobId)
    requires forall k :: k in s.store.mem ==> Waiting(s.store.mem[k], k.jobId)
    ensures |HeldVms(s)| == n
  {
    NamesCount(n);
    hide Names, Name;
    forall v | v in Names(n) ensures v in HeldVms(s) {
      NameIn(n, v);
      var k := Job(|v| - 1);
      assert k in s.store.mem && s.store.mem[k].vm == Some(v);
    }
    forall v | v in HeldVms(s) ensures v in Names(n) {
      var k :| k in s.store.mem && s.store.mem[k].vm == Some(v);
      assert k == Job(k.jobId) && v == Name(k.jobId);
      NameIn(n, v);
    }
    assert HeldVms(s) == Names(n);
  }

  /** The bound of `FleetBound` is met exactly, whatever the limit and the number of restarts:
      the resumed jobs wait for a slot while new ones overtake them. */
  lemma FleetBoundIsMet(lim: Limits, restarts: nat) returns (run: seq<Action>)
    ensures Valid(lim, Initial(), run) && After(lim, Initial(), run).restarts == restarts
    ensures |HeldVms(After(lim, Initial(), run))| == lim.maxVms * (restarts + 1)
    ensures |Slots(After(lim, Initial(), run))| <= lim.maxVms
  {
    var t;
    run, t := Fleets(lim, restarts);
    FleetHolds(t, Cap(lim, restarts + 1));
    hide Valid, After, HeldVms;
  }

  ghost predicate HoldsOneFleet(lim: Limits, run: seq<Action>)
    requires Valid(lim, Initial(), run)
  {
    |HeldVms(After(lim, Initial(), run))| <= lim.maxVms
  }

  /** MaxConcurrentVMs bounds the VMs held exactly as long as no process was restarted. */
  lemma OneFleetIffNoRestart(lim: Limits, restarts: nat)
    requires lim.maxVms > 0
    ensures (forall run :: Valid(lim, Initial(), run) && After(lim, Initial(), run).restarts == restarts ==> HoldsOneFleet(lim, run))
            <==> restarts == 0
  {
    hide Valid, After, HeldVms;
    if restarts == 0 {
      forall run | Valid(lim, Initial(), run) && After(lim, Initial(), run).restarts == 0 ensures HoldsOneFleet(lim, run) {
        FleetBound(lim, run);
      }
    } else {
      var run := FleetBoundIsMet(lim, restarts);
      assert lim.maxVms * (restarts + 1) == lim.maxVms + lim.maxVms * restarts > lim.maxVms;
      assert !HoldsOneFleet(lim, run);
    }
  }

  // ---------------------------------------------------------------- a stale adoption

  lemma CreatedIsHot()
    ensures var s := Created6(Submitted(A), A, "a");
            && Sane(s.workers[A]) && At(s, A, Work) && s.workers.Keys == {A} && !s.cancelled
            && s.made.Keys == {"a"} && Hot(s, s.made["a"]) && s.made["a"].job == A && A in Submitted(A).store.mem
            && !Submitted(A).store.mem[A].state.Terminal() && !Clear(Submitted(A).store.mem[A], s.made["a"])
  {
    var s := Created6(Submitted(A), A, "a");
    assert s.sent == {s.made["a"]};
  }

  lemma FirstCreation(lim: Limits)
    requires lim.maxVms > 0
    ensures var s := Submitted(A);
            && A in s.workers && Valid(lim, s, CreateRun(s, A, "a"))
            && After(lim, s, CreateRun(s, A, "a")) == Created6(s, A, "a")
            && forall a :: a in CreateRun(s, A, "a") ==> !a.Crash?
  {
    var s := Submitted(A);
    assert Slots(s) == {};
    hide Valid, After, Created6;
    CreateSucceeds(lim, s, A, "a");
  }

  lemma HotStays(s: Sys, t: Sys, seen: Progress)
    requires Unheard(s, t) && "a" in s.made && Hot(s, s.made["a"]) && s.made["a"].job == A && !Clear(seen, s.made["a"])
    ensures !Harmless(t, A, seen)
  {
    hide Clear;
    assert Hot(t, s.made["a"]);
  }

  /** A's worker makes a VM, deletes it and leaves. */
  lemma Departure(lim: Limits) returns (run: seq<Action>)
    requires lim.maxVms > 0
    ensures Valid(lim, Submitted(A), run) && forall a :: a in run ==> !a.Crash?
    ensures var s, t := Submitted(A), After(lim, Submitted(A), run);
            A !in t.workers && !t.cancelled && !s.store.mem[A].state.Terminal() && !Harmless(t, A, s.store.mem[A])
  {
    hide Valid, After, Created6, Sane, Clear, Enabled, Apply, Submitted, Mint, CreateRun, Harmless, Hot;
    FirstCreation(lim);
    CreatedIsHot();
    var s := Submitted(A);
    var mid := Created6(s, A, "a");
    var home := GoesHome(lim, mid, A);
    Concat(lim, s, CreateRun(s, A, "a"), home);
    run := CreateRun(s, A, "a") + home;
    HotStays(mid, After(lim, s, run), s.store.mem[A]);
  }

  /** A run that submits A, lists it, and goes on. */
  lemma Looked(lim: Limits, s: Sys, run: seq<Action>) returns (past: seq<Move>)
    requires s == Submitted(A) && Valid(lim, s, run) && forall a :: a in run ==> !a.Crash?
    ensures past == [Step(SubmitNew(A, true)), Look(A)] + Lifted(run)
    ensures Legal(lim, Start(), past) && Cautious(lim, Start(), past)
    ensures End(lim, Start(), past) == View(After(lim, s, run), {(A, s.store.mem[A])})
  {
    var listed := View(s, {(A, s.store.mem[A])});
    assert Moved(lim, Start(), Step(SubmitNew(A, true))) == View(s, {});
    assert Moved(lim, View(s, {}), Look(A)) == listed;
    LiftedRun(lim, listed, run);
    past := [Step(SubmitNew(A, true)), Look(A)] + Lifted(run);
    assert past[1..][1..] == Lifted(run);
    hide Enabled, Apply, Lifted;
  }

  /** The program can adopt a version that is not harmless: a sweep lists job A while it is
      queued, A's worker comes and goes, and the sweep adopts what it listed. */
  lemma StaleAdoptionMakesTwoVms() returns (past: seq<Move>, seen: Progress)
    ensures Legal(Limits(1, 1), Start(), past) && Cautious(Limits(1, 1), Start(), past)
    ensures |past| >= 2 && past[..2] == [Step(SubmitNew(A, true)), Look(A)]
    ensures seen == Submitted(A).store.mem[A]
    ensures var v := End(Limits(1, 1), Start(), past);
            May(Limits(1, 1), v, Adopt(A, seen)) && CanDouble(Limits(1, 1), Moved(Limits(1, 1), v, Adopt(A, seen)))
  {
    var lim := Limits(1, 1);
    hide Valid, After, Submitted, Harmless, Legal, End, Cautious, CanDouble, Lifted;
    seen := Submitted(A).store.mem[A];
    var run := Departure(lim);
    past := Looked(lim, Submitted(A), run);
    TwoVmsIffNotHarmless(lim, past, A, seen);
  }

  /** The worker of A drains its VM: DELETING, first delete pending. */
  function Draining(): Sys {
    var s := Created6(Submitted(A), A, "a");
    var m := s.store.mem[A := s.store.mem[A].(state := Deleting)];
    s.(store := Image(m, m), workers := map[A := Worker(m[A], Cleanup(0, true))])
  }

  function RunnerUpState(): Sys {
    var s := Created6(Submitted(A), A, "a");
    var m := s.store.mem[A := s.store.mem[A].(state := RunnerUp)];
    s.(store := Image(m, m), workers := map[A := Worker(m[A], Work)])
  }

  lemma RunnerUpRun(lim: Limits) returns (run: seq<Action>)
    requires lim.maxVms > 0
    ensures Valid(lim, Initial(), run) && After(lim, Initial(), run) == RunnerUpState()
  {
    hide Valid, After;
    FirstVm(lim);
    run := [SubmitNew(A, true)] + CreateRun(Submitted(A), A, "a");
    var s0 := Created6(Submitted(A), A, "a");
    Extend(lim, run, Advance(A, Bootstrapping, true), s0);
    run := run + [Advance(A, Bootstrapping, true)];
    var s1 := Apply(lim, s0, Advance(A, Bootstrapping, true));
    Extend(lim, run, Advance(A, RunnerUp, true), s1);
    run := run + [Advance(A, RunnerUp, true)];
    assert Apply(lim, s1, Advance(A, RunnerUp, true)) == RunnerUpState();
  }

  lemma DrainRun(lim: Limits) returns (run: seq<Action>)
    requires lim.maxVms > 0
    ensures Valid(lim, Initial(), run) && After(lim, Initial(), run) == Draining()
  {
    hide Valid, After;
    run := RunnerUpRun(lim);
    var s2 := RunnerUpState();
    Extend(lim, run, Advance(A, JobDone, true), s2);
    run := run + [Advance(A, JobDone, true)];
    var s3 := Apply(lim, s2, Advance(A, JobDone, true));
    Extend(lim, run, Release(A, true), s3);
    run := run + [Release(A, true)];
    assert Apply(lim, s3, Release(A, true)) == Draining();
  }

  lemma DrainingFacts()
    ensures var s := Draining();
            && At(s, A, Cleanup(0, true)) && s.workers[A].rec.vm == Some("a") && "a" in s.live && s.store.mem.Keys == {A}
  {
  }

  /** A record may become COMPLETE while its VM lives on: three refused deletes suffice. The
      record no longer counts for HasVM, so the VM is left to the orphan sweep. */
  lemma CompleteWithLiveVm() returns (run: seq<Action>)
    ensures Valid(Limits(1, 0), Initial(), run)
    ensures var s := After(Limits(1, 0), Initial(), run);
            && A in s.store.disk && s.store.disk[A].state == Complete && s.store.disk[A].vm == Some("a")
            && "a" in s.live && Enabled(Limits(1, 0), s, CollectOrphan("a"))
  {
    DrainingFacts();
    hide Draining, Valid, After;
    var past := DrainRun(Limits(1, 0));
    run := ThreeRefusals(Limits(1, 0), past, Draining());
  }

  lemma Refused(lim: Limits, s: Sys, tries: nat)
    requires tries <= 2 && At(s, A, Cleanup(tries, true)) && s.workers[A].rec.vm == Some("a")
    ensures Enabled(lim, s, TryDelete(A, false, false))
    ensures Apply(lim, s, TryDelete(A, false, false)) ==
            if tries < 2 then Goto(s, A, Cleanup(tries + 1, true)) else Goto(s.(gaveUp := s.gaveUp + {"a"}), A, Freed)
  {
  }

  /** After the third refusal. */
  function Spent(s: Sys): Sys
    requires A in s.workers
  {
    Goto(s.(gaveUp := s.gaveUp + {"a"}), A, Freed)
  }

  lemma RefusalSteps(lim: Limits, s: Sys) returns (s1: Sys, s2: Sys)
    requires At(s, A, Cleanup(0, true)) && s.workers[A].rec.vm == Some("a")
    ensures var no := TryDelete(A, false, false);
            Does(lim, s, no, s1) && Does(lim, s1, no, s2) && Does(lim, s2, no, Spent(s))
  {
    Refused(lim, s, 0);
    s1 := Goto(s, A, Cleanup(1, true));
    Refused(lim, s1, 1);
    s2 := Goto(s1, A, Cleanup(2, true));
    Refused(lim, s2, 2);
    hide Enabled, Apply;
    assert Goto(s2.(gaveUp := s2.gaveUp + {"a"}), A, Freed).workers == Spent(s).workers;
  }

  lemma ThreeRefusals(lim: Limits, past: seq<Action>, s: Sys) returns (run: seq<Action>)
    requires Valid(lim, Initial(), past) && After(lim, Initial(), past) == s
    requires At(s, A, Cleanup(0, true)) && s.workers[A].rec.vm == Some("a")
    ensures Valid(lim, Initial(), run)
    ensures After(lim, Initial(), run) == Put(Spent(s), A, s.workers[A].rec.(state := Complete), Exiting, true)
  {
    var no := TryDelete(A, false, false);
    var s1, s2 := RefusalSteps(lim, s);
    assert Does(lim, Spent(s), Finish(A, true), Put(Spent(s), A, s.workers[A].rec.(state := Complete), Exiting, true));
    hide Valid, After, Enabled, Apply, Spent, Put;
    Extend(lim, past, no, s);
    Extend(lim, past + [no], no, s1);
    Extend(lim, past + [no] + [no], no, s2);
    Extend(lim, past + [no] + [no] + [no], Finish(A, true), Spent(s));
    run := past + [no] + [no] + [no] + [Finish(A, true)];
  }
}
