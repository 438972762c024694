/** Every action keeps the invariant; hence every run does. */
module InvariantSteps {
  import opened Records
  import opened Protocol
  import opened Invariant

  lemma InvParts(lim: Limits, s: Sys)
    requires Inv(lim, s)
    ensures SoundStore(lim, s) && Staffed(s) && Wired(lim, s) && OneShot(s) && Tracking(s) && Sweepable(s)
  {
  }

  lemma InvWhole(lim: Limits, s: Sys)
    requires SoundStore(lim, s) && Staffed(s) && Wired(lim, s) && OneShot(s) && Tracking(s) && Sweepable(s)
    ensures Inv(lim, s)
  {
  }

  lemma WorkerFacts(lim: Limits, s: Sys, k: Key)
    requires SoundStore(lim, s) && Staffed(s) && Employed(s, k)
    ensures k in s.store.mem && s.store.mem[k] == s.workers[k].rec
    ensures Standing(s, k, s.workers[k]) && Sound(lim, s, k, s.workers[k].rec)
  {
  }

  // ---------------------------------------------------------------- steps of one worker

  /** What a worker's new record `r` must satisfy to be stored; `extra` are VM IDs it records first. */
  ghost predicate Storable(lim: Limits, s: Sys, k: Key, r: Progress, pc: Pc, extra: set<VmId>)
  {
    && Employed(s, k) && k in s.store.mem
    && var w := s.workers[k].rec;
    && Sound(lim, s, k, r)
    && NotAfter(w, r)
    && (forall i :: Hot(s, i) && i.job == k && Past(w, i) ==> Past(r, i))
    && (forall v :: v in extra ==> v in s.made && s.made[v].job == k && r.Holds(v))
    && (r.state.HasMachine() ==> r.vm.Some? && (r.vm.value in s.tracked || r.vm.value in extra))
    && (w.vm.Some? && w.Holds(w.vm.value) && !r.Holds(w.vm.value) ==> Gone(s, w.vm.value))
    && (r.state == JobDone || r.state == Deleting ==> pc != WaitSlot && pc != Exiting)
  }

  function Stored(s: Sys, k: Key, r: Progress, pc: Pc, ok: bool, extra: set<VmId>): Sys {
    Put(s.(tracked := s.tracked + extra), k, r, pc, ok)
  }

  lemma PutStore(lim: Limits, s: Sys, k: Key, r: Progress, pc: Pc, ok: bool, extra: set<VmId>)
    requires Inv(lim, s) && Storable(lim, s, k, r, pc, extra)
    ensures SoundStore(lim, Stored(s, k, r, pc, ok, extra))
  {
    var t := Stored(s, k, r, pc, ok, extra);
    forall h | h in t.store.mem ensures Sound(lim, t, h, t.store.mem[h]) {
      assert h != k ==> Sound(lim, s, h, s.store.mem[h]);
    }
    forall h | h in t.store.disk ensures Sound(lim, t, h, t.store.disk[h]) {
      assert !ok ==> Sound(lim, s, h, s.store.disk[h]);
    }
    forall h | h in t.store.mem && h in t.store.disk ensures NotAfter(t.store.disk[h], t.store.mem[h]) {
      if h == k && !ok {
        NotAfterTransitive(s.store.disk[k], s.store.mem[k], r);
      }
    }
  }

  lemma PutStaff(lim: Limits, s: Sys, k: Key, r: Progress, pc: Pc, ok: bool, extra: set<VmId>)
    requires Inv(lim, s) && Storable(lim, s, k, r, pc, extra)
    requires pc == Exiting || Standing(Stored(s, k, r, pc, ok, extra), k, Worker(r, pc))
    ensures Staffed(Stored(s, k, r, pc, ok, extra))
  {
    var t := Stored(s, k, r, pc, ok, extra);
    forall h | Employed(t, h)
      ensures h in t.store.mem && t.store.mem[h] == t.workers[h].rec && Standing(t, h, t.workers[h])
    {
      if h != k {
        assert Employed(s, h);
      }
    }
  }

  lemma PutNetwork(lim: Limits, s: Sys, k: Key, r: Progress, pc: Pc, ok: bool, extra: set<VmId>)
    requires Inv(lim, s) && Storable(lim, s, k, r, pc, extra)
    ensures Wired(lim, Stored(s, k, r, pc, ok, extra)) && OneShot(Stored(s, k, r, pc, ok, extra))
  {
    var t := Stored(s, k, r, pc, ok, extra);
    assert forall i :: Hot(t, i) <==> Hot(s, i);
    forall i | Hot(t, i) ensures Behind(t.store.mem, i) && Behind(t.store.disk, i) {
      assert Hot(s, i);
    }
  }

  lemma PutTracking(lim: Limits, s: Sys, k: Key, r: Progress, pc: Pc, ok: bool, extra: set<VmId>)
    requires Inv(lim, s) && Storable(lim, s, k, r, pc, extra)
    ensures Tracking(Stored(s, k, r, pc, ok, extra)) && Sweepable(Stored(s, k, r, pc, ok, extra))
  {
    var t := Stored(s, k, r, pc, ok, extra);
    forall v | v in t.tracked
      ensures v in t.made && (Gone(t, v) || HeldBy(t.store.mem, t.made[v].job, v))
    {
      if v !in extra {
        assert Gone(s, v) || HeldBy(s.store.mem, s.made[v].job, v);
      }
    }
    forall v | v in t.durable
      ensures Gone(t, v) || (v in t.made && HeldBy(t.store.disk, t.made[v].job, v))
    {
      if !ok {
        assert Gone(s, v) || HeldBy(s.store.disk, s.made[v].job, v);
      }
    }
    forall h | h in t.store.mem && Leftover(t, h) && t.store.mem[h].vm.Some?
      ensures t.store.mem[h].vm.value in t.older
    {
      assert h != k;
      assert Leftover(s, h);
    }
  }

  lemma PutKeeps(lim: Limits, s: Sys, k: Key, r: Progress, pc: Pc, ok: bool, extra: set<VmId>)
    requires Inv(lim, s) && Storable(lim, s, k, r, pc, extra)
    requires pc == Exiting || Standing(Stored(s, k, r, pc, ok, extra), k, Worker(r, pc))
    ensures Inv(lim, Stored(s, k, r, pc, ok, extra))
  {
    PutStore(lim, s, k, r, pc, ok, extra);
    PutStaff(lim, s, k, r, pc, ok, extra);
    PutNetwork(lim, s, k, r, pc, ok, extra);
    PutTracking(lim, s, k, r, pc, ok, extra);
  }

  lemma NoExtra(s: Sys, k: Key, r: Progress, pc: Pc, ok: bool)
    ensures Stored(s, k, r, pc, ok, {}) == Put(s, k, r, pc, ok)
  {
    assert s.tracked + {} == s.tracked;
  }

  // ---------------------------------------------------------------- frames

  /** Records stay sound while the server only learns more and counters only grow. */
  lemma SameStore(lim: Limits, s: Sys, t: Sys)
    requires SoundStore(lim, s)
    requires t.store == s.store && s.nextLife <= t.nextLife && s.nextNonce <= t.nextNonce
    requires forall i :: i in s.answers ==> i in t.answers && t.answers[i] == s.answers[i]
    ensures SoundStore(lim, t)
  {
    forall k | k in t.store.mem ensures Sound(lim, t, k, t.store.mem[k]) {
      assert Sound(lim, s, k, s.store.mem[k]);
    }
    forall k | k in t.store.disk ensures Sound(lim, t, k, t.store.disk[k]) {
      assert Sound(lim, s, k, s.store.disk[k]);
    }
  }

  lemma SameNetwork(lim: Limits, s: Sys, t: Sys)
    requires Wired(lim, s) && OneShot(s)
    requires t.store == s.store && t.sent == s.sent && t.answers == s.answers && t.made == s.made && t.older == s.older
    requires t.live <= s.live && s.nextLife <= t.nextLife && s.nextNonce <= t.nextNonce
    ensures Wired(lim, t) && OneShot(t)
  {
    assert forall i :: Hot(t, i) <==> Hot(s, i);
  }

  lemma SameTracking(s: Sys, t: Sys)
    requires Tracking(s)
    requires t.store == s.store && t.made == s.made && t.tracked == s.tracked && t.durable == s.durable
    requires t.live <= s.live && s.gaveUp <= t.gaveUp
    ensures Tracking(t)
  {
    forall v | v in t.tracked ensures Gone(t, v) || HeldBy(t.store.mem, t.made[v].job, v) {
      assert Gone(s, v) || HeldBy(s.store.mem, s.made[v].job, v);
    }
    forall v | v in t.durable ensures Gone(t, v) || (v in t.made && HeldBy(t.store.disk, t.made[v].job, v)) {
      assert Gone(s, v) || HeldBy(s.store.disk, s.made[v].job, v);
    }
  }

  /** What the others know survives when records stay, VMs only disappear and answers only accrue. */
  lemma StandingStays(s: Sys, t: Sys, k: Key, w: Worker)
    requires Standing(s, k, w)
    requires Durable(s, k, w.rec) ==> Durable(t, k, w.rec)
    requires s.sent <= t.sent && s.gaveUp <= t.gaveUp
    requires forall i :: i in s.answers ==> i in t.answers && t.answers[i] == s.answers[i]
    requires w.rec.vm.Some? && w.rec.vm.value in t.live ==> w.rec.vm.value in s.live
    ensures Standing(t, k, w)
  {
  }

  lemma GotoStaff(lim: Limits, s: Sys, t: Sys, k: Key, pc: Pc)
    requires Staffed(s) && Employed(s, k)
    requires t.workers == s.workers[k := s.workers[k].(pc := pc)]
    requires t.store == s.store && t.answers == s.answers && s.sent <= t.sent && t.live <= s.live && s.gaveUp <= t.gaveUp
    requires pc == Exiting || Standing(t, k, Worker(s.workers[k].rec, pc))
    ensures Staffed(t)
  {
    forall h | Employed(t, h)
      ensures h in t.store.mem && t.store.mem[h] == t.workers[h].rec && Standing(t, h, t.workers[h])
    {
      assert Employed(s, h);
      if h != k {
        StandingStays(s, t, h, s.workers[h]);
      }
    }
  }

  lemma GotoSweep(s: Sys, t: Sys, k: Key, pc: Pc)
    requires Sweepable(s) && Employed(s, k) && k in s.store.mem && s.store.mem[k] == s.workers[k].rec
    requires t.workers == s.workers[k := s.workers[k].(pc := pc)]
    requires t.store == s.store && t.older == s.older && t.live <= s.live && t.listing == s.listing
    requires s.workers[k].rec.state == JobDone || s.workers[k].rec.state == Deleting ==>
               s.workers[k].pc == WaitSlot || (pc != WaitSlot && pc != Exiting)
    ensures Sweepable(t)
  {
    forall h | h in t.store.mem && Leftover(t, h) && t.store.mem[h].vm.Some?
      ensures t.store.mem[h].vm.value in t.older
    {
      assert Leftover(s, h);
    }
  }

  /** The worker of `k` moves to `pc`; meanwhile VMs may disappear and requests may be sent. */
  ghost predicate Moves(s: Sys, t: Sys, k: Key, pc: Pc) {
    && Employed(s, k)
    && t.workers == s.workers[k := s.workers[k].(pc := pc)]
    && t.(workers := s.workers, live := s.live, gaveUp := s.gaveUp) == s
    && t.live <= s.live && s.gaveUp <= t.gaveUp
  }

  lemma MoveKeeps(lim: Limits, s: Sys, t: Sys, k: Key, pc: Pc)
    requires Inv(lim, s) && Moves(s, t, k, pc)
    requires pc == Exiting || Standing(t, k, Worker(s.workers[k].rec, pc))
    requires s.workers[k].rec.state == JobDone || s.workers[k].rec.state == Deleting ==>
               s.workers[k].pc == WaitSlot || (pc != WaitSlot && pc != Exiting)
    ensures Inv(lim, t)
  {
    SameStore(lim, s, t);
    SameNetwork(lim, s, t);
    SameTracking(s, t);
    GotoStaff(lim, s, t, k, pc);
    GotoSweep(s, t, k, pc);
  }

  lemma BumpKeeps(lim: Limits, s: Sys)
    requires Inv(lim, s)
    ensures Inv(lim, s.(nextNonce := s.nextNonce + 1))
  {
    var t := s.(nextNonce := s.nextNonce + 1);
    SameStore(lim, s, t);
    SameNetwork(lim, s, t);
    SameTracking(s, t);
    forall h | Employed(t, h)
      ensures h in t.store.mem && t.store.mem[h] == t.workers[h].rec && Standing(t, h, t.workers[h])
    {
      assert Employed(s, h);
      StandingStays(s, t, h, s.workers[h]);
    }
    assert forall k :: k in s.store.mem ==> (Leftover(t, k) <==> Leftover(s, k));
  }

  // ---------------------------------------------------------------- minting keys

  function Bumped(s: Sys): Sys {
    s.(nextNonce := s.nextNonce + 1)
  }

  /** A record may replace its key when no hot request bears its try. */
  lemma MintStorable(lim: Limits, s: Sys, k: Key, i: IdemKey, pc: Pc)
    requires SoundStore(lim, s) && Staffed(s) && Employed(s, k)
    requires s.workers[k].rec.state == Queued || s.workers[k].rec.state == Creating
    requires forall j :: Hot(s, j) && j.job == k && Past(s.workers[k].rec, j) ==> Past(s.workers[k].rec.(state := Creating, idem := Some(i)), j)
    requires Mine(Bumped(s), k, s.workers[k].rec, i)
    ensures Storable(lim, Bumped(s), k, s.workers[k].rec.(state := Creating, idem := Some(i)), pc, {})
  {
    var w := s.workers[k].rec;
    var r := w.(state := Creating, idem := Some(i));
    var b := Bumped(s);
    assert Employed(b, k) && k in b.store.mem && b.workers[k].rec == w;
    assert Sound(lim, s, k, w);
    assert Sound(lim, b, k, r);
    assert forall j :: Hot(b, j) <==> Hot(s, j);
  }

  lemma NoVmYet(lim: Limits, s: Sys, k: Key)
    requires SoundStore(lim, s) && Staffed(s) && Employed(s, k)
    requires s.workers[k].rec.state == Queued || s.workers[k].rec.state == Creating
    ensures s.workers[k].rec.vm == None
  {
    assert Sound(lim, s, k, s.workers[k].rec);
  }

  lemma MintKeeps(lim: Limits, s: Sys, k: Key, i: IdemKey, pc: Pc, ok: bool)
    requires Inv(lim, s) && Employed(s, k)
    requires s.workers[k].rec.state == Queued || s.workers[k].rec.state == Creating
    requires forall j :: Hot(s, j) && j.job == k && Past(s.workers[k].rec, j) ==> Past(s.workers[k].rec.(state := Creating, idem := Some(i)), j)
    requires Mine(Bumped(s), k, s.workers[k].rec, i)
    requires if ok then pc == Send || pc == Backoff else pc == Erred(true)
    ensures Inv(lim, Put(Bumped(s), k, s.workers[k].rec.(state := Creating, idem := Some(i)), pc, ok))
  {
    hide Inv, SoundStore, Staffed, Hot, Past, Storable;
    var r := s.workers[k].rec.(state := Creating, idem := Some(i));
    InvParts(lim, s);
    MintStorable(lim, s, k, i, pc);
    BumpKeeps(lim, s);
    NoExtra(Bumped(s), k, r, pc, ok);
    NoVmYet(lim, s, k);
    PutKeeps(lim, Bumped(s), k, r, pc, ok, {});
  }

  lemma EnterKeeps(lim: Limits, s: Sys, k: Key, ok: bool)
    requires Inv(lim, s) && Enabled(lim, s, Enter(k, ok))
    ensures Inv(lim, Apply(lim, s, Enter(k, ok)))
  {
    var w := s.workers[k].rec;
    assert Employed(s, k);
    assert Sound(lim, s, k, w);
    var r := EnterCreating(s, k, w);
    MintKeeps(lim, s, k, r.idem.value, if ok then Send else Erred(true), ok);
  }

  lemma FreshKeyKeeps(lim: Limits, s: Sys, k: Key, ok: bool)
    requires Inv(lim, s) && Enabled(lim, s, FreshKey(k, ok))
    ensures Inv(lim, Apply(lim, s, FreshKey(k, ok)))
  {
    var w := s.workers[k].rec;
    assert Employed(s, k);
    assert Standing(s, k, s.workers[k]);
    assert !Hot(s, w.idem.value);
    MintKeeps(lim, s, k, Mint(s, k, w), if ok then Backoff else Erred(true), ok);
  }

  // ---------------------------------------------------------------- the worker's other stores

  /** A record may move up its chain to `to` without touching key or retry. */
  ghost predicate Climbable(s: Sys, k: Key, to: JobState, pc: Pc) {
    && Employed(s, k)
    && var w := s.workers[k].rec;
    && w.state.Rank() <= to.Rank() && to.Rank() >= 3
    && !w.state.Terminal()
    && (w.state.HasMachine() || to.Terminal())
    && (to.Terminal() && w.vm.Some? ==> Gone(s, w.vm.value))
    && (if to.Terminal() then pc == Exiting else pc == Work || (to == Deleting && pc == Cleanup(0, true)))
  }

  lemma ClimbStorable(lim: Limits, s: Sys, k: Key, to: JobState, pc: Pc)
    requires SoundStore(lim, s) && Staffed(s) && Tracking(s) && Climbable(s, k, to, pc)
    ensures Storable(lim, s, k, s.workers[k].rec.(state := to), pc, {})
  {
    assert Sound(lim, s, k, s.workers[k].rec);
  }

  lemma ClimbKeeps(lim: Limits, s: Sys, k: Key, to: JobState, pc: Pc, ok: bool)
    requires Inv(lim, s) && Climbable(s, k, to, pc)
    ensures Inv(lim, Put(s, k, s.workers[k].rec.(state := to), pc, ok))
  {
    ClimbStorable(lim, s, k, to, pc);
    NoExtra(s, k, s.workers[k].rec.(state := to), pc, ok);
    PutKeeps(lim, s, k, s.workers[k].rec.(state := to), pc, ok, {});
  }

  lemma RetryStorable(lim: Limits, s: Sys, k: Key, ok: bool)
    requires SoundStore(lim, s) && Staffed(s) && Enabled(lim, s, Retry(k, ok))
    ensures Storable(lim, s, k, Retried(s.workers[k].rec), Pace, {})
  {
    assert Employed(s, k);
    assert Standing(s, k, s.workers[k]);
    assert Sound(lim, s, k, s.workers[k].rec);
  }

  lemma RetryKeeps(lim: Limits, s: Sys, k: Key, ok: bool)
    requires Inv(lim, s) && Enabled(lim, s, Retry(k, ok))
    ensures Inv(lim, Apply(lim, s, Retry(k, ok)))
  {
    hide Inv;
    RetryStorable(lim, s, k, ok) by {
      InvParts(lim, s);
    }
    NoExtra(s, k, Retried(s.workers[k].rec), Pace, ok);
    PutKeeps(lim, s, k, Retried(s.workers[k].rec), Pace, ok, {});
  }

  lemma RecordVmStorable(lim: Limits, s: Sys, k: Key, ok: bool)
    requires SoundStore(lim, s) && Staffed(s) && Wired(lim, s) && Enabled(lim, s, RecordVm(k, ok))
    ensures Storable(lim, s, k, s.workers[k].rec.(vm := Some(s.workers[k].pc.vm), state := WaitReady), Work, {s.workers[k].pc.vm})
  {
    assert Employed(s, k);
    assert Standing(s, k, s.workers[k]);
    assert Sound(lim, s, k, s.workers[k].rec);
  }

  lemma RecordVmKeeps(lim: Limits, s: Sys, k: Key, ok: bool)
    requires Inv(lim, s) && Enabled(lim, s, RecordVm(k, ok))
    ensures Inv(lim, Apply(lim, s, RecordVm(k, ok)))
  {
    hide Inv;
    var v := s.workers[k].pc.vm;
    RecordVmStorable(lim, s, k, ok) by {
      InvParts(lim, s);
    }
    PutKeeps(lim, s, k, s.workers[k].rec.(vm := Some(v), state := WaitReady), Work, ok, {v});
  }

  // ---------------------------------------------------------------- requests and answers

  /** Sending a durable key cannot break the one-shot property. */
  lemma PostKeeps(lim: Limits, s: Sys, k: Key)
    requires Inv(lim, s) && Enabled(lim, s, Post(k))
    ensures Inv(lim, Apply(lim, s, Post(k)))
  {
    var w := s.workers[k].rec;
    var i := w.idem.value;
    var t := Goto(s.(sent := s.sent + {i}), k, Await);
    assert Employed(s, k);
    assert Standing(s, k, s.workers[k]);
    assert Sound(lim, s, k, w);
    SameStore(lim, s, t);
    SameTracking(s, t);
    GotoStaff(lim, s, t, k, Await);
    GotoSweep(s, t, k, Await);
    PostNetwork(lim, s, t, k, i);
  }

  lemma PostNetwork(lim: Limits, s: Sys, t: Sys, k: Key, i: IdemKey)
    requires Wired(lim, s) && OneShot(s)
    requires t.(workers := s.workers, sent := s.sent) == s && t.sent == s.sent + {i}
    requires k in s.store.mem && Durable(s, k, s.store.mem[k])
    requires Sound(lim, s, k, s.store.mem[k]) && s.store.mem[k].state == Creating && s.store.mem[k].idem == Some(i)
    ensures Wired(lim, t) && OneShot(t)
  {
    assert forall j :: Hot(t, j) ==> Hot(s, j) || j == i;
    forall j, j' | Hot(t, j) && Hot(t, j') && SameTry(j, j') ensures j == j' {
      assert Hot(s, j) || j == i;
      assert Hot(s, j') || j' == i;
    }
  }

  lemma ServeNetwork(lim: Limits, s: Sys, i: IdemKey, answer: Answer)
    requires Wired(lim, s) && OneShot(s) && Enabled(lim, s, Serve(i, answer))
    ensures Wired(lim, Apply(lim, s, Serve(i, answer))) && OneShot(Apply(lim, s, Serve(i, answer)))
  {
    var t := Apply(lim, s, Serve(i, answer));
    assert forall j :: Hot(t, j) ==> Hot(s, j);
  }

  lemma ServeStaff(lim: Limits, s: Sys, t: Sys)
    requires SoundStore(lim, s) && Staffed(s) && Wired(lim, s)
    requires t.store == s.store && s.sent == t.sent && s.gaveUp == t.gaveUp && t.workers == s.workers
    requires forall j :: j in s.answers ==> j in t.answers && t.answers[j] == s.answers[j]
    requires forall v :: v in t.live && v in s.made ==> v in s.live
    ensures Staffed(t)
  {
    forall h | Employed(t, h)
      ensures h in t.store.mem && t.store.mem[h] == t.workers[h].rec && Standing(t, h, t.workers[h])
    {
      assert Employed(s, h);
      ServeStanding(lim, s, t, h);
    }
  }

  lemma ServeKeeps(lim: Limits, s: Sys, i: IdemKey, answer: Answer)
    requires Inv(lim, s) && Enabled(lim, s, Serve(i, answer))
    ensures Inv(lim, Apply(lim, s, Serve(i, answer)))
  {
    var t := Apply(lim, s, Serve(i, answer));
    SameStore(lim, s, t);
    ServeStaff(lim, s, t);
    ServeNetwork(lim, s, i, answer);
    ServeTracking(lim, s, t);
  }

  lemma ServeStanding(lim: Limits, s: Sys, t: Sys, h: Key)
    requires SoundStore(lim, s) && Staffed(s) && Wired(lim, s) && Employed(s, h)
    requires t.store == s.store && s.sent == t.sent && s.gaveUp == t.gaveUp
    requires forall j :: j in s.answers ==> j in t.answers && t.answers[j] == s.answers[j]
    requires forall v :: v in t.live && v in s.made ==> v in s.live
    ensures Standing(t, h, s.workers[h])
  {
    var w := s.workers[h];
    assert Standing(s, h, w);
    assert Sound(lim, s, h, w.rec);
    StandingStays(s, t, h, w);
  }

  lemma ServeTracking(lim: Limits, s: Sys, t: Sys)
    requires Wired(lim, s) && Tracking(s) && Sweepable(s)
    requires t.(answers := s.answers, made := s.made, live := s.live) == s
    requires forall v :: v in s.made ==> v in t.made && t.made[v] == s.made[v] && (v in t.live <==> v in s.live)
    ensures Tracking(t) && Sweepable(t)
  {
    forall v | v in t.tracked ensures Gone(t, v) || HeldBy(t.store.mem, t.made[v].job, v) {
      assert Gone(s, v) || HeldBy(s.store.mem, s.made[v].job, v);
    }
    forall v | v in t.durable ensures Gone(t, v) || (v in t.made && HeldBy(t.store.disk, t.made[v].job, v)) {
      assert Gone(s, v) || HeldBy(s.store.disk, s.made[v].job, v);
    }
    assert forall h :: h in s.store.mem ==> (Leftover(t, h) <==> Leftover(s, h));
  }

  // ---------------------------------------------------------------- deletes

  lemma DeleteTo(lim: Limits, s: Sys, k: Key, acted: bool, ok: bool)
    requires Enabled(lim, s, TryDelete(k, acted, ok))
    ensures var pc, v := s.workers[k].pc, s.workers[k].rec.vm.value;
            Apply(lim, s, TryDelete(k, acted, ok)) ==
              Goto(s.(live := if acted then s.live - {v} else s.live,
                      gaveUp := if !ok && pc.tries >= 2 then s.gaveUp + {v} else s.gaveUp), k,
                   if !ok && pc.tries < 2 then Cleanup(pc.tries + 1, pc.final) else if pc.final then Freed else Erred(true))
  {
  }

  lemma DeleteMoves(lim: Limits, s: Sys, k: Key, acted: bool, ok: bool)
    requires Staffed(s) && Enabled(lim, s, TryDelete(k, acted, ok))
    ensures var t := Apply(lim, s, TryDelete(k, acted, ok));
            k in t.workers && Moves(s, t, k, t.workers[k].pc)
            && Standing(t, k, Worker(s.workers[k].rec, t.workers[k].pc))
            && !t.workers[k].pc.WaitSlot? && !t.workers[k].pc.Exiting?
  {
    assert Employed(s, k);
    assert Standing(s, k, s.workers[k]);
    DeleteTo(lim, s, k, acted, ok);
    hide Enabled, Apply, Staffed;
  }

  lemma DeleteKeeps(lim: Limits, s: Sys, k: Key, acted: bool, ok: bool)
    requires Inv(lim, s) && Enabled(lim, s, TryDelete(k, acted, ok))
    ensures Inv(lim, Apply(lim, s, TryDelete(k, acted, ok)))
  {
    var t := Apply(lim, s, TryDelete(k, acted, ok));
    DeleteMoves(lim, s, k, acted, ok);
    MoveKeeps(lim, s, t, k, t.workers[k].pc);
  }

  /** Any VM may disappear at any time. */
  lemma LoseKeeps(lim: Limits, s: Sys, t: Sys)
    requires Inv(lim, s)
    requires t.(live := s.live) == s && t.live <= s.live
    ensures Inv(lim, t)
  {
    SameStore(lim, s, t);
    SameNetwork(lim, s, t);
    SameTracking(s, t);
    ServeStaff(lim, s, t);
    assert forall h :: h in s.store.mem ==> (Leftover(t, h) <==> Leftover(s, h));
  }

  // ---------------------------------------------------------------- spawning and leaving

  lemma SpawnKeeps(lim: Limits, s: Sys, k: Key)
    requires Inv(lim, s) && Enabled(lim, s, Spawn(k))
    ensures Inv(lim, Apply(lim, s, Spawn(k)))
  {
    var t := Apply(lim, s, Spawn(k));
    SameStore(lim, s, t);
    SameNetwork(lim, s, t);
    SameTracking(s, t);
    forall h | Employed(t, h)
      ensures h in t.store.mem && t.store.mem[h] == t.workers[h].rec && Standing(t, h, t.workers[h])
    {
      if h != k {
        assert Employed(s, h);
        StandingStays(s, t, h, s.workers[h]);
      }
    }
    forall h | h in t.store.mem && Leftover(t, h) && t.store.mem[h].vm.Some?
      ensures t.store.mem[h].vm.value in t.older
    {
      assert Leftover(s, h);
    }
  }

  lemma ExitStaff(s: Sys, k: Key)
    requires Staffed(s) && Sweepable(s)
    requires k in s.workers && (s.workers[k].pc == Exiting || s.workers[k].pc == WaitSlot)
    ensures Staffed(s.(workers := s.workers - {k})) && Sweepable(s.(workers := s.workers - {k}))
  {
    var t := s.(workers := s.workers - {k});
    forall h | Employed(t, h)
      ensures h in t.store.mem && t.store.mem[h] == t.workers[h].rec && Standing(t, h, t.workers[h])
    {
      assert Employed(s, h);
      StandingStays(s, t, h, s.workers[h]);
    }
    forall h | h in t.store.mem && Leftover(t, h) && t.store.mem[h].vm.Some?
      ensures t.store.mem[h].vm.value in t.older
    {
      assert Leftover(s, h);
    }
  }

  lemma ExitKeeps(lim: Limits, s: Sys, k: Key)
    requires Inv(lim, s) && Enabled(lim, s, Exit(k))
    ensures Inv(lim, Apply(lim, s, Exit(k)))
  {
    var t := s.(workers := s.workers - {k});
    assert t == Apply(lim, s, Exit(k));
    assert s.workers[k].pc == Exiting || s.workers[k].pc == WaitSlot;
    hide Inv, Enabled, Apply, SoundStore, Wired, Tracking, OneShot;
    InvParts(lim, s);
    SameStore(lim, s, t);
    SameNetwork(lim, s, t);
    SameTracking(s, t);
    ExitStaff(s, k);
    InvWhole(lim, t);
  }

  // ---------------------------------------------------------------- steps on records without a worker

  /** The store, and only the store, changes at a key no employed worker owns. */
  ghost predicate Unowned(s: Sys, t: Sys, k: Key, ok: bool) {
    && !Employed(s, k)
    && t.(store := s.store, durable := s.durable, live := s.live, workers := s.workers, nextLife := s.nextLife) == s
    && t.live <= s.live && s.nextLife <= t.nextLife
    && (forall h :: h != k ==> (h in t.store.mem <==> h in s.store.mem))
    && (forall h :: h != k && h in s.store.mem ==> t.store.mem[h] == s.store.mem[h])
    && t.store.disk == (if ok then t.store.mem else s.store.disk)
    && t.durable == (if ok then s.tracked else s.durable)
    && (forall h :: h != k ==> (h in t.workers <==> h in s.workers))
    && (forall h :: h != k && h in s.workers ==> t.workers[h] == s.workers[h])
  }

  lemma UnownedStaff(lim: Limits, s: Sys, t: Sys, k: Key, ok: bool)
    requires Staffed(s) && Unowned(s, t, k, ok)
    requires Employed(t, k) ==> k in t.store.mem && t.store.mem[k] == t.workers[k].rec && Standing(t, k, t.workers[k])
    ensures Staffed(t)
  {
    forall h | Employed(t, h)
      ensures h in t.store.mem && t.store.mem[h] == t.workers[h].rec && Standing(t, h, t.workers[h])
    {
      if h != k {
        assert Employed(s, h);
        StandingStays(s, t, h, s.workers[h]);
      }
    }
  }

  lemma UnownedNetwork(lim: Limits, s: Sys, t: Sys, k: Key, ok: bool)
    requires Wired(lim, s) && OneShot(s) && Unowned(s, t, k, ok)
    requires k in t.store.mem ==> forall i :: Hot(s, i) && i.job == k ==> Past(t.store.mem[k], i)
    ensures Wired(lim, t) && OneShot(t)
  {
    assert forall i :: Hot(t, i) <==> Hot(s, i);
    forall i | Hot(t, i) ensures Behind(t.store.mem, i) && Behind(t.store.disk, i) {
      assert Hot(s, i);
      assert Behind(s.store.mem, i);
    }
  }

  lemma UnownedTracking(lim: Limits, s: Sys, t: Sys, k: Key, ok: bool)
    requires Tracking(s) && Sweepable(s) && Unowned(s, t, k, ok)
    requires k in s.store.mem && s.store.mem[k].vm.Some? && s.store.mem[k].Holds(s.store.mem[k].vm.value) ==> Gone(t, s.store.mem[k].vm.value)
    requires k in t.store.mem ==> t.store.mem[k].state.Terminal() || t.store.mem[k].state == Queued
    ensures Tracking(t) && Sweepable(t)
  {
    forall v | v in t.tracked ensures Gone(t, v) || HeldBy(t.store.mem, t.made[v].job, v) {
      assert Gone(s, v) || HeldBy(s.store.mem, s.made[v].job, v);
    }
    forall v | v in t.durable ensures Gone(t, v) || (v in t.made && HeldBy(t.store.disk, t.made[v].job, v)) {
      assert !ok ==> Gone(s, v) || HeldBy(s.store.disk, s.made[v].job, v);
    }
    forall h | h in t.store.mem && Leftover(t, h) && t.store.mem[h].vm.Some?
      ensures t.store.mem[h].vm.value in t.older
    {
      assert Leftover(s, h);
    }
  }

  lemma SubmitStore(lim: Limits, s: Sys, k: Key, ok: bool)
    requires SoundStore(lim, s) && Enabled(lim, s, SubmitNew(k, ok))
    ensures SoundStore(lim, Apply(lim, s, SubmitNew(k, ok)))
  {
    var t := Apply(lim, s, SubmitNew(k, ok));
    forall h | h in t.store.mem ensures Sound(lim, t, h, t.store.mem[h]) {
      assert h != k ==> Sound(lim, s, h, s.store.mem[h]);
    }
    forall h | h in t.store.disk ensures Sound(lim, t, h, t.store.disk[h]) {
      assert !ok ==> Sound(lim, s, h, s.store.disk[h]);
    }
  }

  lemma SubmitKeeps(lim: Limits, s: Sys, k: Key, ok: bool)
    requires Inv(lim, s) && Enabled(lim, s, SubmitNew(k, ok))
    ensures Inv(lim, Apply(lim, s, SubmitNew(k, ok)))
  {
    var t := Apply(lim, s, SubmitNew(k, ok));
    assert Unowned(s, t, k, ok);
    SubmitStore(lim, s, k, ok);
    UnownedStaff(lim, s, t, k, ok);
    UnownedNetwork(lim, s, t, k, ok);
    UnownedTracking(lim, s, t, k, ok);
  }

  /** The VM of a leftover record is deleted, or was already gone when it was not listed. */
  lemma CloseReleases(lim: Limits, s: Sys, k: Key, ok: bool)
    requires Inv(lim, s) && Enabled(lim, s, Close(k, ok))
    ensures s.store.mem[k].vm.Some? ==> s.store.mem[k].vm.value !in Apply(lim, s, Close(k, ok)).live
  {
    assert Leftover(s, k);
  }

  lemma CloseUnowned(lim: Limits, s: Sys, k: Key, ok: bool)
    requires Enabled(lim, s, Close(k, ok))
    ensures var t := Apply(lim, s, Close(k, ok));
            && Unowned(s, t, k, ok) && !Employed(t, k) && k in s.store.mem && k in t.store.mem
            && t.store.mem[k] == s.store.mem[k].(state := Complete)
  {
  }

  lemma CloseStore(lim: Limits, s: Sys, k: Key, ok: bool)
    requires SoundStore(lim, s) && Enabled(lim, s, Close(k, ok))
    ensures SoundStore(lim, Apply(lim, s, Close(k, ok)))
  {
    var t := Apply(lim, s, Close(k, ok));
    assert t.store == s.store.Upsert(k, s.store.mem[k].(state := Complete), ok) && t.answers == s.answers
        && t.nextLife == s.nextLife && t.nextNonce == s.nextNonce;
    hide Apply, Enabled;
    forall h | h in t.store.mem ensures Sound(lim, t, h, t.store.mem[h]) {
      assert Sound(lim, s, h, s.store.mem[h]);
    }
    forall h | h in t.store.disk ensures Sound(lim, t, h, t.store.disk[h]) {
      assert !ok ==> Sound(lim, s, h, s.store.disk[h]);
    }
    forall h | h in t.store.mem && h in t.store.disk ensures NotAfter(t.store.disk[h], t.store.mem[h]) {
      if h == k && !ok {
        NotAfterTransitive(s.store.disk[k], s.store.mem[k], t.store.mem[k]);
      }
    }
  }

  lemma CloseKeeps(lim: Limits, s: Sys, k: Key, ok: bool)
    requires Inv(lim, s) && Enabled(lim, s, Close(k, ok))
    ensures Inv(lim, Apply(lim, s, Close(k, ok)))
  {
    hide Inv, Enabled, Apply;
    var t := Apply(lim, s, Close(k, ok));
    CloseReleases(lim, s, k, ok);
    CloseUnowned(lim, s, k, ok);
    hide Unowned, SoundStore, Wired, Sweepable;
    InvParts(lim, s);
    CloseStore(lim, s, k, ok);
    UnownedStaff(lim, s, t, k, ok);
    assert forall i :: Hot(s, i) && i.job == k ==> Behind(s.store.mem, i);
    UnownedNetwork(lim, s, t, k, ok);
    UnownedTracking(lim, s, t, k, ok);
    InvWhole(lim, t);
  }

  lemma EmployedUnfinished(s: Sys, k: Key)
    requires Staffed(s) && k in s.store.mem
    ensures Employed(s, k) ==> !s.store.mem[k].state.Terminal()
  {
    if Employed(s, k) {
      assert Standing(s, k, s.workers[k]);
    }
  }

  lemma PruneUnowned(lim: Limits, s: Sys, k: Key, ok: bool)
    requires Enabled(lim, s, Prune(k, ok)) && !Employed(s, k)
    ensures var t := Apply(lim, s, Prune(k, ok));
            Unowned(s, t, k, ok) && !Employed(t, k) && k in s.store.mem && s.store.mem[k].state.Terminal() && k !in t.store.mem
  {
  }

  lemma PruneStore(lim: Limits, s: Sys, k: Key, ok: bool)
    requires SoundStore(lim, s) && Enabled(lim, s, Prune(k, ok))
    ensures SoundStore(lim, Apply(lim, s, Prune(k, ok)))
  {
    var t := Apply(lim, s, Prune(k, ok));
    forall h | h in t.store.mem ensures Sound(lim, t, h, t.store.mem[h]) {
      assert Sound(lim, s, h, s.store.mem[h]);
    }
    forall h | h in t.store.disk ensures Sound(lim, t, h, t.store.disk[h]) {
      assert !ok ==> Sound(lim, s, h, s.store.disk[h]);
    }
  }

  lemma PruneKeeps(lim: Limits, s: Sys, k: Key, ok: bool)
    requires Inv(lim, s) && Enabled(lim, s, Prune(k, ok))
    ensures Inv(lim, Apply(lim, s, Prune(k, ok)))
  {
    assert k in s.store.mem && s.store.mem[k].state.Terminal();
    hide Inv, Enabled, Apply;
    InvParts(lim, s);
    var t := Apply(lim, s, Prune(k, ok));
    EmployedUnfinished(s, k);
    PruneUnowned(lim, s, k, ok);
    hide Unowned, SoundStore, Wired, Sweepable;
    PruneStore(lim, s, k, ok);
    UnownedStaff(lim, s, t, k, ok);
    UnownedNetwork(lim, s, t, k, ok);
    UnownedTracking(lim, s, t, k, ok);
    InvWhole(lim, t);
  }

  // ---------------------------------------------------------------- crash

  lemma CrashKeeps(lim: Limits, s: Sys)
    requires Inv(lim, s)
    ensures Inv(lim, Apply(lim, s, Crash))
  {
    var t := Apply(lim, s, Crash);
    assert forall i :: Hot(t, i) <==> Hot(s, i);
    CrashTracking(lim, s, t);
    forall k | k in t.store.mem ensures Sound(lim, t, k, t.store.mem[k]) {
      assert Sound(lim, s, k, s.store.disk[k]);
    }
  }

  lemma CrashTracking(lim: Limits, s: Sys, t: Sys)
    requires SoundStore(lim, s) && Wired(lim, s) && Tracking(s) && t == Apply(lim, s, Crash)
    ensures Tracking(t) && Sweepable(t)
  {
    forall v | v in t.tracked ensures Gone(t, v) || HeldBy(t.store.mem, t.made[v].job, v) {
      assert Gone(s, v) || HeldBy(s.store.disk, s.made[v].job, v);
    }
    forall h | h in t.store.mem && Leftover(t, h) && t.store.mem[h].vm.Some?
      ensures t.store.mem[h].vm.value in t.older
    {
      assert Sound(lim, s, h, s.store.disk[h]);
    }
  }

  // ---------------------------------------------------------------- all actions

  lemma GotoKeeps(lim: Limits, s: Sys, k: Key, pc: Pc)
    requires Inv(lim, s) && Employed(s, k)
    requires pc == Exiting || Standing(s, k, Worker(s.workers[k].rec, pc))
    requires s.workers[k].rec.state == JobDone || s.workers[k].rec.state == Deleting ==>
               s.workers[k].pc == WaitSlot || (pc != WaitSlot && pc != Exiting)
    ensures Inv(lim, Goto(s, k, pc))
  {
    var t := Goto(s, k, pc);
    if pc != Exiting {
      StandingStays(s, t, k, Worker(s.workers[k].rec, pc));
    }
    MoveKeeps(lim, s, t, k, pc);
  }

  /** The actions of `k`'s worker that store nothing. */
  predicate Quiet(a: Action) {
    a.Acquire? || a.PostFails? || a.Reply? || a.RateLimited? || a.ReplyLost? || a.Resend? || a.GiveUp?
    || a.Begin? || a.Fail? || a.Stop? || a.Again? || a.Abort?
  }

  function QuietPc(s: Sys, a: Action): Pc
    requires Quiet(a)
    requires a.Reply? ==> a.k in s.workers && s.workers[a.k].rec.idem.Some? && s.workers[a.k].rec.idem.value in s.answers
  {
    match a
    case Acquire(_) => Dispatch
    case PostFails(_) => Erred(true)
    case Reply(k) => if s.answers[s.workers[k].rec.idem.value].Created? then GotVm(s.answers[s.workers[k].rec.idem.value].vm) else Refused
    case RateLimited(_) => Backoff
    case ReplyLost(_) => Erred(true)
    case Resend(_) => Send
    case GiveUp(_) => Erred(false)
    case Begin(_) => Work
    case Fail(_) => Cleanup(0, false)
    case Again(_) => Dispatch
    case _ => Exiting
  }

  lemma QuietMoves(lim: Limits, s: Sys, a: Action)
    requires Quiet(a) && Enabled(lim, s, a)
    ensures Apply(lim, s, a) == Goto(s, a.k, QuietPc(s, a))
  {
  }

  ghost predicate QuietReady(s: Sys, k: Key, pc: Pc) {
    && Employed(s, k)
    && (pc == Exiting || Standing(s, k, Worker(s.workers[k].rec, pc)))
    && (s.workers[k].rec.state == JobDone || s.workers[k].rec.state == Deleting ==>
          s.workers[k].pc == WaitSlot || (pc != WaitSlot && pc != Exiting))
  }

  lemma NetworkReady(lim: Limits, s: Sys, a: Action)
    requires SoundStore(lim, s) && Staffed(s) && Enabled(lim, s, a)
    requires a.PostFails? || a.Reply? || a.RateLimited? || a.ReplyLost? || a.Resend? || a.GiveUp?
    ensures QuietReady(s, a.k, QuietPc(s, a))
  {
    hide SoundStore, Staffed;
    assert Employed(s, a.k);
    WorkerFacts(lim, s, a.k);
  }

  lemma LoopReady(lim: Limits, s: Sys, a: Action)
    requires SoundStore(lim, s) && Staffed(s) && Enabled(lim, s, a)
    requires a.Acquire? || a.Begin? || a.Fail? || a.Stop? || a.Again? || a.Abort?
    ensures QuietReady(s, a.k, QuietPc(s, a))
  {
    hide SoundStore, Staffed;
    assert Employed(s, a.k);
    WorkerFacts(lim, s, a.k);
  }

  lemma QuietStanding(lim: Limits, s: Sys, a: Action)
    requires SoundStore(lim, s) && Staffed(s) && Quiet(a) && Enabled(lim, s, a)
    ensures QuietReady(s, a.k, QuietPc(s, a))
  {
    hide Enabled, SoundStore, Staffed, QuietReady;
    if a.Acquire? || a.Begin? || a.Fail? || a.Stop? || a.Again? || a.Abort? {
      LoopReady(lim, s, a);
    } else {
      NetworkReady(lim, s, a);
    }
  }

  lemma QuietKeeps(lim: Limits, s: Sys, a: Action)
    requires Inv(lim, s) && Quiet(a) && Enabled(lim, s, a)
    ensures Inv(lim, Apply(lim, s, a))
  {
    QuietMoves(lim, s, a);
    QuietStanding(lim, s, a);
    hide Apply, Enabled, Inv;
    GotoKeeps(lim, s, a.k, QuietPc(s, a));
  }

  /** The actions that move a record up its chain. */
  predicate Climbs(a: Action) {
    a.Vanish? || a.Advance? || a.Save? || a.Release? || a.Finish? || a.Settle? || a.Moot?
  }

  function ClimbState(a: Action): JobState
    requires Climbs(a)
  {
    match a
    case Advance(_, to, _) => to
    case Save(_, _) => Bootstrapping
    case Release(_, _) => Deleting
    case Settle(_, _) => Failed
    case _ => Complete
  }

  function ClimbPc(a: Action): Pc
    requires Climbs(a)
  {
    if a.Advance? || a.Save? then Work else if a.Release? then Cleanup(0, true) else Exiting
  }

  lemma ClimbMoves(lim: Limits, s: Sys, a: Action)
    requires Climbs(a) && Enabled(lim, s, a)
    ensures a.k in s.workers
    ensures Apply(lim, s, a) == Put(s, a.k, s.workers[a.k].rec.(state := ClimbState(a)), ClimbPc(a), a.ok)
  {
  }

  lemma EndReady(lim: Limits, s: Sys, a: Action)
    requires SoundStore(lim, s) && Staffed(s) && Enabled(lim, s, a)
    requires a.Vanish? || a.Finish? || a.Settle? || a.Moot?
    ensures Climbable(s, a.k, ClimbState(a), ClimbPc(a))
  {
    hide SoundStore, Staffed;
    assert Employed(s, a.k);
    WorkerFacts(lim, s, a.k);
  }

  lemma ClimbReady(lim: Limits, s: Sys, a: Action)
    requires SoundStore(lim, s) && Staffed(s) && Climbs(a) && Enabled(lim, s, a)
    ensures Climbable(s, a.k, ClimbState(a), ClimbPc(a))
  {
    hide SoundStore, Staffed;
    if a.Advance? || a.Save? || a.Release? {
      assert Employed(s, a.k);
      WorkerFacts(lim, s, a.k);
    } else {
      EndReady(lim, s, a);
    }
  }

  lemma ClimbStepKeeps(lim: Limits, s: Sys, a: Action)
    requires Inv(lim, s) && Climbs(a) && Enabled(lim, s, a)
    ensures Inv(lim, Apply(lim, s, a))
  {
    ClimbReady(lim, s, a);
    ClimbMoves(lim, s, a);
    hide *;
    ClimbKeeps(lim, s, a.k, ClimbState(a), ClimbPc(a), a.ok);
  }

  predicate Ambient(a: Action) {
    a.TakeListing? || a.Shutdown? || a.CollectOrphan? || a.VmDies?
  }

  lemma AmbientKeeps(lim: Limits, s: Sys, a: Action)
    requires Inv(lim, s) && Ambient(a) && Enabled(lim, s, a)
    ensures Inv(lim, Apply(lim, s, a))
  {
    var t := Apply(lim, s, a);
    if a.CollectOrphan? || a.VmDies? {
      LoseKeeps(lim, s, t);
    } else {
      SameStore(lim, s, t);
      SameNetwork(lim, s, t);
      SameTracking(s, t);
      ServeStaff(lim, s, t);
      assert forall h :: h in s.store.mem ==> (Leftover(t, h) <==> Leftover(s, h));
    }
  }

  /** The remaining actions, each with a lemma of its own. */
  predicate Special(a: Action) {
    a.SubmitNew? || a.Spawn? || a.Enter? || a.Post? || a.FreshKey? || a.RecordVm? || a.TryDelete?
    || a.Retry? || a.Exit? || a.Close? || a.Prune? || a.Serve? || a.Crash?
  }

  lemma Kinds(a: Action)
    ensures Quiet(a) || Climbs(a) || Ambient(a) || Special(a)
  {
  }

  lemma SpecialKeeps(lim: Limits, s: Sys, a: Action)
    requires Inv(lim, s) && Special(a) && Enabled(lim, s, a)
    ensures Inv(lim, Apply(lim, s, a))
  {
    hide Inv, Enabled, Apply;
    match a
    case SubmitNew(k, ok) => SubmitKeeps(lim, s, k, ok);
    case Spawn(k) => SpawnKeeps(lim, s, k);
    case Enter(k, ok) => EnterKeeps(lim, s, k, ok);
    case Post(k) => PostKeeps(lim, s, k);
    case FreshKey(k, ok) => FreshKeyKeeps(lim, s, k, ok);
    case RecordVm(k, ok) => RecordVmKeeps(lim, s, k, ok);
    case TryDelete(k, acted, ok) => DeleteKeeps(lim, s, k, acted, ok);
    case Retry(k, ok) => RetryKeeps(lim, s, k, ok);
    case Exit(k) => ExitKeeps(lim, s, k);
    case Close(k, ok) => CloseKeeps(lim, s, k, ok);
    case Prune(k, ok) => PruneKeeps(lim, s, k, ok);
    case Serve(i, answer) => ServeKeeps(lim, s, i, answer);
    case Crash => CrashKeeps(lim, s);
  }

  lemma StepKeepsInv(lim: Limits, s: Sys, a: Action)
    requires Inv(lim, s) && Enabled(lim, s, a)
    ensures Inv(lim, Apply(lim, s, a))
  {
    hide Inv, Enabled, Apply, Quiet, Climbs, Ambient, Special;
    Kinds(a);
    if Quiet(a) {
      QuietKeeps(lim, s, a);
    } else if Climbs(a) {
      ClimbStepKeeps(lim, s, a);
    } else if Ambient(a) {
      AmbientKeeps(lim, s, a);
    } else {
      SpecialKeeps(lim, s, a);
    }
  }

  lemma {:induction false} RunKeepsInv(lim: Limits, s: Sys, run: seq<Action>)
    requires Inv(lim, s) && Valid(lim, s, run)
    ensures Inv(lim, After(lim, s, run))
    decreases |run|
  {
    if run != [] {
      StepKeepsInv(lim, s, run[0]);
      RunKeepsInv(lim, Apply(lim, s, run[0]), run[1..]);
    }
  }
}
