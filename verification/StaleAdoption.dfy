/** Where adoption breaks the bound of one VM per try: exactly at the versions that are not
    harmless. The run that shows it sends the other workers home, lets the adopted version
    fail up to the try of the earlier request, and asks there with another key. */
module StaleAdoption {
  import opened Records
  import opened Protocol
  import opened Invariant
  import opened InvariantSteps
  import opened Runs
  import opened Adoption

  // ---------------------------------------------------------------- sending the others home

  /** Enough to know that the worker can finish. */
  ghost predicate Sane(w: Worker) {
    && (w.pc == Dispatch || w.pc == WaitSlot ==> !w.rec.state.Terminal())
    && (w.pc == Dispatch || w.pc == Work ==> (w.rec.state.HasMachine() ==> w.rec.vm.Some?))
    && (w.pc == Work ==> w.rec.state.HasMachine())
    && (w.pc.Cleanup? ==> w.rec.vm.Some?)
    && (w.pc == Pace ==> w.rec.state == Queued)
  }

  ghost predicate AllSane(s: Sys) {
    forall k :: k in s.workers ==> Sane(s.workers[k])
  }

  lemma WatchedSane(lim: Limits, v: View)
    requires Watched(lim, v)
    ensures AllSane(v.sys)
  {
    forall k | k in v.sys.workers ensures Sane(v.sys.workers[k]) {
      Has(lim, v.sys, k);
    }
  }

  /** No request is sent or answered, and the process is not stopped. */
  ghost predicate Unheard(s: Sys, t: Sys) {
    && t.sent == s.sent && t.answers == s.answers && t.made == s.made && t.cancelled == s.cancelled
    && s.nextNonce <= t.nextNonce && t.nextLife == s.nextLife
  }

  /** The next step of a worker that fails and goes home. */
  function Home(lim: Limits, k: Key, w: Worker): Action {
    match w.pc
    case WaitSlot => Acquire(k)
    case Dispatch => if w.rec.state.Rank() <= 1 then Enter(k, false) else Begin(k)
    case Send => PostFails(k)
    case Await => ReplyLost(k)
    case GotVm(_) => RecordVm(k, true)
    case Refused => FreshKey(k, false)
    case Backoff => Vanish(k, true)
    case Work => if w.rec.state.Rank() <= 5 then Fail(k) else Release(k, true)
    case Cleanup(_, _) => TryDelete(k, true, true)
    case Freed => Finish(k, true)
    case Erred(retryable) => if retryable && w.rec.retry < lim.maxRetries then Moot(k, true) else Settle(k, true)
    case Pace => Again(k)
    case Exiting => Exit(k)
  }

  function Steps(pc: Pc): nat {
    match pc
    case Exiting => 0
    case Freed => 1
    case Backoff => 1
    case Erred(_) => 1
    case Send => 2
    case Await => 2
    case Refused => 2
    case Cleanup(_, _) => 2
    case Work => 3
    case GotVm(_) => 4
    case Dispatch => 4
    case Pace => 5
    case WaitSlot => 5
  }

  /** From `s` to `t` the worker of `k` took a step home. */
  ghost predicate Nearer(s: Sys, t: Sys, k: Key)
    requires k in s.workers
  {
    && Unheard(s, t)
    && if s.workers[k].pc == Exiting then t.workers == s.workers - {k}
       else k in t.workers && t.workers == s.workers[k := t.workers[k]] && Sane(t.workers[k])
            && t.workers[k].pc != WaitSlot && Steps(t.workers[k].pc) < Steps(s.workers[k].pc)
  }

  lemma SilentHome(lim: Limits, s: Sys, k: Key)
    requires k in s.workers && Sane(s.workers[k]) && !s.cancelled && s.workers[k].pc != Exiting
    requires Quiet(Home(lim, k, s.workers[k])) && s.workers[k].pc != WaitSlot
    ensures var a := Home(lim, k, s.workers[k]); Enabled(lim, s, a) && Nearer(s, Apply(lim, s, a), k)
  {
    QuietMoves(lim, s, Home(lim, k, s.workers[k]));
    hide Apply;
  }

  lemma EndingHome(lim: Limits, s: Sys, k: Key)
    requires k in s.workers && Sane(s.workers[k]) && Climbs(Home(lim, k, s.workers[k]))
    ensures var a := Home(lim, k, s.workers[k]); Enabled(lim, s, a) && Nearer(s, Apply(lim, s, a), k)
  {
    ClimbMoves(lim, s, Home(lim, k, s.workers[k]));
    hide Apply;
  }

  lemma StoringHome(lim: Limits, s: Sys, k: Key)
    requires k in s.workers && Sane(s.workers[k])
    requires var a := Home(lim, k, s.workers[k]); a.Enter? || a.FreshKey?
    ensures var a := Home(lim, k, s.workers[k]); Enabled(lim, s, a) && Nearer(s, Apply(lim, s, a), k)
  {
  }

  lemma ParticularHome(lim: Limits, s: Sys, k: Key)
    requires k in s.workers && Sane(s.workers[k])
    requires var a := Home(lim, k, s.workers[k]); a.RecordVm? || a.Exit?
    ensures var a := Home(lim, k, s.workers[k]); Enabled(lim, s, a) && Nearer(s, Apply(lim, s, a), k)
  {
  }

  lemma DeletingHome(lim: Limits, s: Sys, k: Key)
    requires k in s.workers && Sane(s.workers[k]) && s.workers[k].pc.Cleanup?
    ensures var a := Home(lim, k, s.workers[k]); Enabled(lim, s, a) && Nearer(s, Apply(lim, s, a), k)
  {
    DeleteTo(lim, s, k, true, true);
    hide Apply;
  }

  lemma HomeStep(lim: Limits, s: Sys, k: Key)
    requires k in s.workers && Sane(s.workers[k]) && s.workers[k].pc != WaitSlot && !s.cancelled
    ensures var a := Home(lim, k, s.workers[k]); Enabled(lim, s, a) && Nearer(s, Apply(lim, s, a), k)
  {
    hide Enabled, Apply, Nearer, Sane, Quiet, Climbs;
    var a := Home(lim, k, s.workers[k]);
    if a.TryDelete? {
      DeletingHome(lim, s, k);
    } else if a.Enter? || a.FreshKey? {
      StoringHome(lim, s, k);
    } else if a.RecordVm? || a.Exit? {
      ParticularHome(lim, s, k);
    } else {
      HomeKinds(lim, k, s.workers[k]);
      if Quiet(a) {
        SilentHome(lim, s, k);
      } else {
        EndingHome(lim, s, k);
      }
    }
  }

  lemma HomeKinds(lim: Limits, k: Key, w: Worker)
    ensures var a := Home(lim, k, w);
            Quiet(a) || Climbs(a) || a.TryDelete? || a.Enter? || a.RecordVm? || a.FreshKey? || a.Exit?
  {
  }

  /** A worker that holds a slot can leave. */
  lemma {:induction false} GoesHome(lim: Limits, s: Sys, k: Key) returns (run: seq<Action>)
    requires k in s.workers && Sane(s.workers[k]) && s.workers[k].pc != WaitSlot && !s.cancelled
    ensures Valid(lim, s, run) && Unheard(s, After(lim, s, run)) && After(lim, s, run).workers == s.workers - {k}
    ensures forall a :: a in run ==> !a.Crash?
    decreases Steps(s.workers[k].pc)
  {
    hide Enabled, Apply, Home, Sane, Steps;
    var a := Home(lim, k, s.workers[k]);
    HomeStep(lim, s, k);
    var t := Apply(lim, s, a);
    assert !a.Crash? by {
      HomeKinds(lim, k, s.workers[k]);
    }
    run := [];
    if s.workers[k].pc != Exiting {
      run := GoesHome(lim, t, k);
      assert t.workers - {k} == s.workers - {k};
    }
    Prepend(lim, s, a, run);
    run := [a] + run;
  }

  /** ... and so can all of them. */
  lemma {:induction false} AllGoHome(lim: Limits, s: Sys) returns (run: seq<Action>)
    requires AllSane(s) && !s.cancelled
    ensures Valid(lim, s, run) && Unheard(s, After(lim, s, run)) && Slots(After(lim, s, run)) == {}
    ensures forall h :: h in s.workers && s.workers[h].pc == WaitSlot ==>
              h in After(lim, s, run).workers && After(lim, s, run).workers[h] == s.workers[h]
    decreases |Slots(s)|
  {
    hide Enabled, Apply, Sane;
    run := [];
    if h :| h in Slots(s) {
      var first := GoesHome(lim, s, h);
      var t := After(lim, s, first);
      assert Slots(t) == Slots(s) - {h};
      var rest := AllGoHome(lim, t);
      Concat(lim, s, first, rest);
      run := first + rest;
    } else {
      assert Slots(s) == {};
    }
  }

  // ---------------------------------------------------------------- climbing to the try of a request

  /** On the way to a retryable error. */
  predicate Failing(w: Worker) {
    w.rec.state.Rank() <= 5 && (w.pc == Dispatch || w.pc == Work || (w.pc.Cleanup? && !w.pc.final) || w.pc == Erred(true))
  }

  predicate SameTryAs(r: Progress, q: Progress) {
    r.life == q.life && r.retry == q.retry
  }

  lemma FailingStep(lim: Limits, s: Sys, k: Key)
    requires k in s.workers && Failing(s.workers[k]) && s.workers[k].pc != Erred(true)
    requires Sane(s.workers[k]) && !s.cancelled
    ensures var a := Home(lim, k, s.workers[k]);
            && Enabled(lim, s, a)
            && var t := Apply(lim, s, a);
            k in t.workers && Failing(t.workers[k]) && SameTryAs(t.workers[k].rec, s.workers[k].rec)
  {
  }

  lemma {:induction false} Fails(lim: Limits, s: Sys, k: Key) returns (run: seq<Action>)
    requires k in s.workers && Failing(s.workers[k]) && Sane(s.workers[k]) && !s.cancelled
    ensures Valid(lim, s, run) && Unheard(s, After(lim, s, run))
    ensures var t := After(lim, s, run); At(t, k, Erred(true)) && SameTryAs(t.workers[k].rec, s.workers[k].rec)
    decreases Steps(s.workers[k].pc)
  {
    run := [];
    if s.workers[k].pc != Erred(true) {
      var a := Home(lim, k, s.workers[k]);
      HomeStep(lim, s, k);
      FailingStep(lim, s, k);
      hide Enabled, Apply, Home, Sane, Steps, Failing;
      run := Fails(lim, Apply(lim, s, a), k);
      Prepend(lim, s, a, run);
      run := [a] + run;
    }
  }

  /** The worker of `k` is about to run version `r`. */
  ghost predicate Trying(s: Sys, k: Key, r: Progress) {
    k in s.workers && s.workers[k] == Worker(r, Dispatch) && !s.cancelled
  }

  lemma RetrySteps(lim: Limits, s: Sys, k: Key) returns (t: Sys, u: Sys)
    requires At(s, k, Erred(true)) && s.workers[k].rec.retry < lim.maxRetries && !s.cancelled
    ensures Does(lim, s, Retry(k, true), t) && Does(lim, t, Again(k), u)
    ensures Unheard(s, u) && Trying(u, k, Retried(s.workers[k].rec))
  {
    t := Put(s, k, Retried(s.workers[k].rec), Pace, true);
    u := Goto(t, k, Dispatch);
  }

  lemma RetryStep(lim: Limits, s: Sys, k: Key)
    requires At(s, k, Erred(true)) && s.workers[k].rec.retry < lim.maxRetries && !s.cancelled
    ensures Valid(lim, s, [Retry(k, true), Again(k)])
    ensures var t := After(lim, s, [Retry(k, true), Again(k)]); Unheard(s, t) && Trying(t, k, Retried(s.workers[k].rec))
  {
    hide Enabled, Apply, Unheard, Trying;
    var t, u := RetrySteps(lim, s, k);
    assert [Again(k)][1..] == [];
    assert Valid(lim, t, [Again(k)]) && After(lim, t, [Again(k)]) == u;
    assert [Retry(k, true), Again(k)] == [Retry(k, true)] + [Again(k)];
    Prepend(lim, s, Retry(k, true), [Again(k)]);
  }

  /** A failed try leads to the next one, whose record is queued. */
  lemma FailedTry(lim: Limits, s: Sys, k: Key, r: Progress) returns (run: seq<Action>)
    requires Trying(s, k, r) && r.state.Rank() <= 5 && (r.state.HasMachine() ==> r.vm.Some?) && r.retry < lim.maxRetries
    ensures Valid(lim, s, run) && Unheard(s, After(lim, s, run))
    ensures Trying(After(lim, s, run), k, Retried(r))
  {
    run := Fails(lim, s, k);
    var t := After(lim, s, run);
    RetryStep(lim, t, k);
    hide Enabled, Apply;
    Concat(lim, s, run, [Retry(k, true), Again(k)]);
    run := run + [Retry(k, true), Again(k)];
  }

  /** However far back `r` is, its worker reaches any later try the limit allows. */
  lemma {:induction false} Climb(lim: Limits, s: Sys, k: Key, r: Progress, retry: nat) returns (run: seq<Action>, q: Progress)
    requires Trying(s, k, r) && r.state.Rank() <= 5 && (r.state.HasMachine() ==> r.vm.Some?) && r.retry <= retry <= lim.maxRetries
    ensures Valid(lim, s, run) && Unheard(s, After(lim, s, run)) && Trying(After(lim, s, run), k, q)
    ensures if r.retry == retry then q == r else q == Progress(r.life, retry, Queued, None, None)
    decreases retry - r.retry
  {
    hide Enabled, Apply;
    if r.retry == retry {
      run, q := [], r;
    } else {
      var first := FailedTry(lim, s, k, r);
      var rest;
      rest, q := Climb(lim, After(lim, s, first), k, Retried(r), retry);
      Concat(lim, s, first, rest);
      run := first + rest;
    }
  }

  // ---------------------------------------------------------------- the second VM

  /** Some VM ID was never used. */
  lemma UnusedVm(used: set<VmId>) returns (v: VmId)
    ensures v !in used
  {
    var n := Longer(used);
    v := seq(n, _ => 'x');
  }

  lemma {:induction false} Longer(used: set<VmId>) returns (n: nat)
    ensures forall v :: v in used ==> |v| < n
  {
    if v :| v in used {
      var m := Longer(used - {v});
      n := if |v| < m then m else |v| + 1;
      forall w | w in used ensures |w| < n {
        assert w != v ==> w in used - {v};
      }
    } else {
      n := 0;
    }
  }

  lemma EnterSteps(lim: Limits, s: Sys, k: Key, q: Progress) returns (u: Sys, t: Sys)
    requires Trying(s, k, q) && (q.state == Queued || (q.state == Creating && q.idem.Some?))
    ensures Does(lim, s, Enter(k, true), u) && Does(lim, u, Post(k), t)
    ensures var j := if q.state == Queued then Mint(s, k, q) else q.idem.value;
            && t.sent == s.sent + {j} && t.answers == s.answers && t.made == s.made && !t.cancelled
            && t.nextNonce == s.nextNonce + 1 && t.nextLife == s.nextLife
            && k in t.workers && t.workers[k] == Worker(q.(state := Creating, idem := Some(j)), Await)
  {
    u := Apply(lim, s, Enter(k, true));
    t := Apply(lim, u, Post(k));
  }

  lemma EnterPost(lim: Limits, s: Sys, k: Key, q: Progress) returns (t: Sys)
    requires Trying(s, k, q) && (q.state == Queued || (q.state == Creating && q.idem.Some?))
    ensures Valid(lim, s, [Enter(k, true), Post(k)]) && t == After(lim, s, [Enter(k, true), Post(k)])
    ensures var j := if q.state == Queued then Mint(s, k, q) else q.idem.value;
            && t.sent == s.sent + {j} && t.answers == s.answers && t.made == s.made && !t.cancelled
            && t.nextNonce == s.nextNonce + 1 && t.nextLife == s.nextLife
            && k in t.workers && t.workers[k] == Worker(q.(state := Creating, idem := Some(j)), Await)
  {
    hide Enabled, Apply, Mint, Trying;
    var u;
    u, t := EnterSteps(lim, s, k, q);
    assert [Post(k)][1..] == [];
    assert [Enter(k, true), Post(k)] == [Enter(k, true)] + [Post(k)];
    assert Valid(lim, u, [Post(k)]) && After(lim, u, [Post(k)]) == t;
    Prepend(lim, s, Enter(k, true), [Post(k)]);
  }

  lemma AskSteps(lim: Limits, s: Sys, k: Key, q: Progress, j: IdemKey) returns (s1: Sys, s2: Sys, s3: Sys)
    requires k in s.workers && s.workers[k] == Worker(q, Await) && q.idem == Some(j) && !s.cancelled
    requires j in s.answers && s.answers[j] == Rejected
    ensures Does(lim, s, Reply(k), s1) && Does(lim, s1, FreshKey(k, true), s2) && Does(lim, s2, Resend(k), s3)
    ensures Enabled(lim, s3, Post(k))
    ensures var t := Apply(lim, s3, Post(k));
            t.sent == s.sent + {Mint(s, k, q)} && t.answers == s.answers && t.made == s.made
  {
    s1 := Goto(s, k, Refused);
    s2 := Apply(lim, s1, FreshKey(k, true));
    s3 := Goto(s2, k, Send);
  }

  /** After a rejection the worker asks with a fresh key. */
  lemma AskAnew(lim: Limits, s: Sys, k: Key, q: Progress, j: IdemKey) returns (run: seq<Action>)
    requires k in s.workers && s.workers[k] == Worker(q, Await) && q.idem == Some(j) && !s.cancelled
    requires j in s.answers && s.answers[j] == Rejected
    ensures run == [Reply(k), FreshKey(k, true), Resend(k), Post(k)] && Valid(lim, s, run)
    ensures var t := After(lim, s, run);
            t.sent == s.sent + {Mint(s, k, q)} && t.answers == s.answers && t.made == s.made
  {
    hide Enabled, Apply, Mint;
    var s1, s2, s3 := AskSteps(lim, s, k, q, j);
    run := [Post(k)];
    assert run[1..] == [];
    Prepend(lim, s2, Resend(k), run);
    assert [Resend(k)] + run == [Resend(k), Post(k)];
    Prepend(lim, s1, FreshKey(k, true), [Resend(k), Post(k)]);
    assert [FreshKey(k, true)] + [Resend(k), Post(k)] == [FreshKey(k, true), Resend(k), Post(k)];
    Prepend(lim, s, Reply(k), [FreshKey(k, true), Resend(k), Post(k)]);
    run := [Reply(k), FreshKey(k, true), Resend(k), Post(k)];
    assert [Reply(k)] + [FreshKey(k, true), Resend(k), Post(k)] == run;
  }

  /** VMs and answers belong together. */
  ghost predicate Booked(s: Sys) {
    forall i :: i in s.answers && s.answers[i].Created? ==> s.answers[i].vm in s.made && s.made[s.answers[i].vm] == i
  }

  /** Two requests of one try that created VMs, or will when the server gets to them. */
  ghost predicate Rivals(s: Sys, i: IdemKey, j: IdemKey) {
    Hot(s, i) && Hot(s, j) && SameTry(i, j) && i != j
  }

  ghost predicate Doubled(s: Sys) {
    exists v, w :: v in s.made && w in s.made && v != w && SameTry(s.made[v], s.made[w])
  }

  /** The server gets to a request. */
  lemma Answers(lim: Limits, s: Sys, i: IdemKey) returns (run: seq<Action>, v: VmId)
    requires Hot(s, i) && Booked(s)
    ensures Valid(lim, s, run) && Booked(After(lim, s, run))
    ensures var t := After(lim, s, run);
            && v in t.made && t.made[v] == i && (forall w :: w in s.made ==> w in t.made && t.made[w] == s.made[w])
            && forall j :: Hot(s, j) ==> Hot(t, j)
  {
    if i in s.answers {
      run, v := [], s.answers[i].vm;
    } else {
      v := UnusedVm(s.made.Keys);
      run := [Serve(i, Created(v))];
      assert run[1..] == [];
      assert After(lim, s, run) == Apply(lim, s, run[0]);
    }
  }

  lemma RivalsDouble(lim: Limits, s: Sys, i: IdemKey, j: IdemKey) returns (run: seq<Action>)
    requires Rivals(s, i, j) && Booked(s)
    ensures Valid(lim, s, run) && Doubled(After(lim, s, run))
  {
    var first, v := Answers(lim, s, i);
    var t := After(lim, s, first);
    var rest, w := Answers(lim, t, j);
    hide Enabled, Apply, Booked, Hot;
    Concat(lim, s, first, rest);
    run := first + rest;
    var u := After(lim, s, run);
    assert u.made[v] == i && u.made[w] == j;
  }

  /** Once tried in the try of `i` with a version that will not use `i`, there are rivals. */
  lemma Rivalry(lim: Limits, s: Sys, k: Key, q: Progress, i: IdemKey) returns (run: seq<Action>, j: IdemKey)
    requires Heard(lim, s) && Trying(s, k, q) && Hot(s, i) && i.job == k && SameTryAs(q, Progress(i.life, i.retry, Queued, None, None))
    requires q.state == Queued || (q.state == Creating && q.idem.Some? && q.idem != Some(i) && Mine(s, k, q, q.idem.value))
    ensures Valid(lim, s, run) && Rivals(After(lim, s, run), i, j) && Booked(After(lim, s, run))
  {
    var t := EnterPost(lim, s, k, q);
    run := [Enter(k, true), Post(k)];
    j := if q.state == Queued then Mint(s, k, q) else q.idem.value;
    hide Enabled, Apply, Valid, After;
    if j in t.answers && t.answers[j].Rejected? {
      var p := q.(state := Creating, idem := Some(j));
      var rest := AskAnew(lim, t, k, p, j);
      j := Mint(t, k, p);
      Concat(lim, s, run, rest);
      run := run + rest;
    }
  }

  lemma Taken(lim: Limits, s: Sys, k: Key, r: Progress)
    requires k in s.workers && s.workers[k] == Worker(r, WaitSlot) && Slots(s) == {} && lim.maxVms > 0 && !s.cancelled
    ensures Valid(lim, s, [Acquire(k)])
    ensures var t := After(lim, s, [Acquire(k)]); Unheard(s, t) && Trying(t, k, r)
  {
    assert [Acquire(k)][1..] == [];
    assert After(lim, s, [Acquire(k)]) == Goto(s, k, Dispatch);
  }

  lemma StillWired(lim: Limits, s: Sys, t: Sys, i: IdemKey)
    requires Wired(lim, s) && Unheard(s, t) && Hot(s, i)
    ensures Hot(t, i) && Heard(lim, t)
  {
  }

  /** The part of `Wired` that needs no list of live VMs. */
  ghost predicate Heard(lim: Limits, s: Sys) {
    && Booked(s)
    && (forall i :: i in s.sent ==> i.nonce < s.nextNonce)
    && (forall i :: i in s.answers ==> i in s.sent)
  }

  /** A waiting worker whose version is not clear of the hot request `i` leads to a second VM. */
  lemma SecondVm(lim: Limits, s: Sys, k: Key, r: Progress, i: IdemKey) returns (run: seq<Action>)
    requires Wired(lim, s) && AllSane(s) && !s.cancelled && lim.maxVms > 0
    requires k in s.workers && s.workers[k] == Worker(r, WaitSlot) && Fit(lim, s, k, r)
    requires Hot(s, i) && i.job == k && !Clear(r, i)
    ensures Valid(lim, s, run) && Doubled(After(lim, s, run))
  {
    hide Enabled, Apply, Valid, After, AllSane, Rivals, Booked;
    var away := AllGoHome(lim, s);
    var s1 := After(lim, s, away);
    Taken(lim, s1, k, r);
    var s2 := After(lim, s1, [Acquire(k)]);
    var up, q := Climb(lim, s2, k, r, i.retry);
    var s3 := After(lim, s2, up);
    StillWired(lim, s, s3, i);
    var ask, j := Rivalry(lim, s3, k, q, i);
    var served := RivalsDouble(lim, After(lim, s3, ask), i, j);
    Concat(lim, s3, ask, served);
    Concat(lim, s2, up, ask + served);
    Concat(lim, s1, [Acquire(k)], up + (ask + served));
    Concat(lim, s, away, [Acquire(k)] + (up + (ask + served)));
    run := away + ([Acquire(k)] + (up + (ask + served)));
  }

  // ---------------------------------------------------------------- the exact condition

  function Lifted(run: seq<Action>): (moves: seq<Move>)
    ensures |moves| == |run| && forall n :: 0 <= n < |run| ==> moves[n] == Step(run[n])
  {
    seq(|run|, n requires 0 <= n < |run| => Step(run[n]))
  }

  lemma {:induction false} LiftedRun(lim: Limits, v: View, run: seq<Action>)
    requires Valid(lim, v.sys, run)
    ensures Legal(lim, v, Lifted(run)) && Cautious(lim, v, Lifted(run))
    ensures End(lim, v, Lifted(run)).sys == After(lim, v.sys, run)
    ensures (forall a :: a in run ==> !a.Crash?) ==> End(lim, v, Lifted(run)).read == v.read
    decreases |run|
  {
    if run != [] {
      assert Lifted(run)[1..] == Lifted(run[1..]);
      hide Enabled, Apply, Lifted;
      LiftedRun(lim, Moved(lim, v, Step(run[0])), run[1..]);
    }
  }

  /** Some careful continuation creates two VMs in one try. */
  ghost predicate CanDouble(lim: Limits, v: View) {
    exists more :: Legal(lim, v, more) && Cautious(lim, v, more) && Doubled(End(lim, v, more).sys)
  }

  lemma WatchedNeverDoubles(lim: Limits, v: View)
    requires Watched(lim, v)
    ensures !CanDouble(lim, v)
  {
    forall more | Legal(lim, v, more) && Cautious(lim, v, more) ensures !Doubled(End(lim, v, more).sys) {
      RunWatched(lim, v, more);
      SingleVm(lim, End(lim, v, more).sys);
    }
  }

  lemma SingleVm(lim: Limits, s: Sys)
    requires Guarded(lim, s)
    ensures !Doubled(s)
  {
    forall v, w | v in s.made && w in s.made && SameTry(s.made[v], s.made[w]) ensures v == w {
      assert Hot(s, s.made[v]) && Hot(s, s.made[w]);
    }
  }

  lemma UnclearDoubles(lim: Limits, v: View, k: Key, r: Progress)
    requires Watched(lim, v) && May(lim, v, Adopt(k, r)) && !v.sys.cancelled && lim.maxVms > 0
    requires !Harmless(v.sys, k, r)
    ensures CanDouble(lim, Moved(lim, v, Adopt(k, r)))
  {
    var i :| Hot(v.sys, i) && i.job == k && !Clear(r, i);
    var t := Moved(lim, v, Adopt(k, r));
    WatchedSane(lim, v);
    assert Fit(lim, v.sys, k, r);
    assert AllSane(t.sys);
    assert Wired(lim, t.sys) && Hot(t.sys, i) && Fit(lim, t.sys, k, r);
    hide Watched, Wired, Fit, AllSane, Clear, Hot, Harmless, May, Moved, Valid, After, Legal, End, Cautious, Doubled;
    var run := SecondVm(lim, t.sys, k, r, i);
    LiftedRun(lim, t, run);
    assert Legal(lim, t, Lifted(run)) && Cautious(lim, t, Lifted(run)) && Doubled(End(lim, t, Lifted(run)).sys);
  }

  /** When an adoption breaks the bound of one VM per try: after any run whose adoptions were
      harmless, adopting a version read earlier makes two VMs of one try reachable if and
      only if some request of that job that created a VM, or still may, is not behind it. */
  lemma TwoVmsIffNotHarmless(lim: Limits, past: seq<Move>, k: Key, r: Progress)
    requires Legal(lim, Start(), past) && Cautious(lim, Start(), past)
    requires May(lim, End(lim, Start(), past), Adopt(k, r))
    requires !End(lim, Start(), past).sys.cancelled && lim.maxVms > 0
    ensures CanDouble(lim, Moved(lim, End(lim, Start(), past), Adopt(k, r))) <==> !Harmless(End(lim, Start(), past).sys, k, r)
  {
    CautiousWatched(lim, past);
    var v := End(lim, Start(), past);
    hide Watched, Harmless, May, Moved, CanDouble, Legal, End, Cautious;
    if Harmless(v.sys, k, r) {
      MoveWatched(lim, v, Adopt(k, r));
      WatchedNeverDoubles(lim, Moved(lim, v, Adopt(k, r)));
    } else {
      UnclearDoubles(lim, v, k, r);
    }
  }
}
