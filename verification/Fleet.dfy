/** How many VMs the records may hold at once: MaxConcurrentVMs while the first process
    runs, and one more MaxConcurrentVMs per restart. */
module Fleet {
  import opened Records
  import opened Protocol
  import opened Invariant
  import opened InvariantSteps
  import opened Safety

  /** The VMs for which HasVM answers yes. */
  function HeldVms(s: Sys): set<VmId> {
    set k | k in s.store.mem && s.store.mem[k].state.HasMachine() && s.store.mem[k].vm.Some? :: s.store.mem[k].vm.value
  }

  function Carriers(m: map<Key, Progress>): set<Key> {
    set k | k in m && m[k].state.HasMachine()
  }

  /** The record has a VM, or its worker may be about to learn of one. */
  predicate Potential(s: Sys, k: Key) {
    || (k in s.store.mem && s.store.mem[k].state.HasMachine())
    || (k in s.workers && (s.workers[k].pc.Await? || s.workers[k].pc.GotVm?))
  }

  function Potentials(s: Sys): set<Key> {
    set k | k in s.store.mem.Keys + s.workers.Keys && Potential(s, k)
  }

  predicate HasSlot(s: Sys, k: Key) {
    k in s.workers && s.workers[k].pc != WaitSlot
  }

  /** MaxConcurrentVMs for each of `n` processes. */
  function Cap(lim: Limits, n: nat): nat {
    lim.maxVms * n
  }

  lemma CapGrows(lim: Limits, n: nat)
    ensures Cap(lim, n + 1) == Cap(lim, n) + lim.maxVms
  {
  }

  ghost predicate Bounded(lim: Limits, s: Sys) {
    && |Slots(s)| <= lim.maxVms
    && (!s.cancelled ==> |Potentials(s) - Slots(s)| <= Cap(lim, s.restarts))
    && |Potentials(s)| <= Cap(lim, s.restarts + 1)
    && |Carriers(s.store.disk)| <= Cap(lim, s.restarts + 1)
    && (forall k :: At(s, k, Exiting) && k in s.store.mem && s.store.mem[k].state.HasMachine() ==> s.cancelled)
  }

  // ---------------------------------------------------------------- one step, key by key

  /** Across a step that is no crash: nobody loses a slot together with a VM, and after
      cancellation nobody comes near a VM any more. */
  ghost predicate Tame(s: Sys, a: Action, t: Sys, k: Key) {
    && t.restarts == s.restarts
    && (s.cancelled ==> t.cancelled)
    && (t.cancelled ==> s.cancelled || a == Shutdown)
    && (HasSlot(t, k) && !HasSlot(s, k) ==> a == Acquire(k))
    && (Potential(t, k) && !HasSlot(t, k) && !s.cancelled ==> Potential(s, k) && !HasSlot(s, k))
    && (Potential(t, k) && s.cancelled ==> Potential(s, k))
    && (At(t, k, Exiting) && k in t.store.mem && t.store.mem[k].state.HasMachine() ==>
          t.cancelled || (At(s, k, Exiting) && k in s.store.mem && s.store.mem[k].state.HasMachine()))
  }

  lemma QuietTame(lim: Limits, s: Sys, a: Action, k: Key)
    requires Staffed(s) && Quiet(a) && Enabled(lim, s, a)
    ensures Tame(s, a, Apply(lim, s, a), k)
  {
    QuietMoves(lim, s, a);
    assert Employed(s, a.k);
    assert Standing(s, a.k, s.workers[a.k]);
  }

  lemma PutTame(s: Sys, a: Action, t: Sys, k: Key)
    requires Climbs(a) && Climbable(s, a.k, ClimbState(a), ClimbPc(a))
    requires t == Put(s, a.k, s.workers[a.k].rec.(state := ClimbState(a)), ClimbPc(a), a.ok)
    requires Staffed(s) && s.workers[a.k].pc != WaitSlot
    ensures Tame(s, a, t, k)
  {
    assert Employed(s, a.k);
    hide Standing, Climbs, ClimbState, ClimbPc;
  }

  lemma ClimbTame(lim: Limits, s: Sys, a: Action, k: Key)
    requires SoundStore(lim, s) && Staffed(s) && Climbs(a) && Enabled(lim, s, a)
    ensures Tame(s, a, Apply(lim, s, a), k)
  {
    assert s.workers[a.k].pc != WaitSlot;
    hide Tame, Enabled, Apply, Staffed, SoundStore, Climbable;
    ClimbMoves(lim, s, a);
    ClimbReady(lim, s, a);
    PutTame(s, a, Apply(lim, s, a), k);
  }

  lemma KeyTame(lim: Limits, s: Sys, a: Action, k: Key)
    requires Staffed(s) && (a.Enter? || a.FreshKey?) && Enabled(lim, s, a)
    ensures Tame(s, a, Apply(lim, s, a), k)
  {
    assert Employed(s, a.k);
    hide Standing;
  }

  lemma VmTame(lim: Limits, s: Sys, a: Action, k: Key)
    requires Staffed(s) && (a.RecordVm? || a.Retry?) && Enabled(lim, s, a)
    ensures Tame(s, a, Apply(lim, s, a), k)
  {
    assert Employed(s, a.k);
    hide Standing;
  }

  lemma MintTame(lim: Limits, s: Sys, a: Action, k: Key)
    requires Staffed(s) && Mints(a) && Enabled(lim, s, a)
    ensures Tame(s, a, Apply(lim, s, a), k)
  {
    hide Tame, Enabled, Apply, Staffed;
    if a.Enter? || a.FreshKey? {
      KeyTame(lim, s, a, k);
    } else {
      VmTame(lim, s, a, k);
    }
  }

  lemma ComeAndGoTame(lim: Limits, s: Sys, a: Action, k: Key)
    requires (a.SubmitNew? || a.Spawn? || a.Exit?) && Enabled(lim, s, a)
    requires At(s, k, Exiting) && k in s.store.mem && s.store.mem[k].state.HasMachine() ==> s.cancelled
    ensures Tame(s, a, Apply(lim, s, a), k)
  {
  }

  lemma PostTame(lim: Limits, s: Sys, k: Key, h: Key)
    requires Enabled(lim, s, Post(h))
    ensures Tame(s, Post(h), Apply(lim, s, Post(h)), k)
  {
  }

  lemma DeleteTame(lim: Limits, s: Sys, k: Key, h: Key, acted: bool, ok: bool)
    requires Enabled(lim, s, TryDelete(h, acted, ok))
    ensures Tame(s, TryDelete(h, acted, ok), Apply(lim, s, TryDelete(h, acted, ok)), k)
  {
    DeleteTo(lim, s, h, acted, ok);
    hide Apply;
  }

  /** Steps that leave records and workers alone. */
  lemma OutsideFrame(lim: Limits, s: Sys, a: Action)
    requires (Ambient(a) || a.Serve?) && Enabled(lim, s, a)
    ensures var t := Apply(lim, s, a);
            t.store == s.store && t.workers == s.workers && t.restarts == s.restarts
            && (t.cancelled <==> s.cancelled || a == Shutdown)
  {
  }

  lemma OutsideTame(lim: Limits, s: Sys, a: Action, k: Key)
    requires (Ambient(a) || a.Serve?) && Enabled(lim, s, a)
    ensures Tame(s, a, Apply(lim, s, a), k)
  {
    OutsideFrame(lim, s, a);
    hide Apply, Enabled, Ambient;
  }

  lemma CloseTame(lim: Limits, s: Sys, h: Key, ok: bool, k: Key)
    requires Enabled(lim, s, Close(h, ok))
    ensures Tame(s, Close(h, ok), Apply(lim, s, Close(h, ok)), k)
  {
  }

  lemma PruneTame(lim: Limits, s: Sys, h: Key, ok: bool, k: Key)
    requires Enabled(lim, s, Prune(h, ok))
    ensures Tame(s, Prune(h, ok), Apply(lim, s, Prune(h, ok)), k)
  {
  }

  lemma SpecialTame(lim: Limits, s: Sys, a: Action, k: Key)
    requires Bounded(lim, s) && Special(a) && !Mints(a) && !a.Crash? && Enabled(lim, s, a)
    ensures Tame(s, a, Apply(lim, s, a), k)
  {
    assert At(s, k, Exiting) && k in s.store.mem && s.store.mem[k].state.HasMachine() ==> s.cancelled;
    hide Bounded, Enabled, Apply, Tame;
    if a.SubmitNew? || a.Spawn? || a.Exit? {
      ComeAndGoTame(lim, s, a, k);
    } else if a.Post? {
      PostTame(lim, s, k, a.k);
    } else if a.TryDelete? {
      DeleteTame(lim, s, k, a.k, a.acted, a.ok);
    } else if a.Close? {
      CloseTame(lim, s, a.k, a.ok, k);
    } else if a.Prune? {
      PruneTame(lim, s, a.k, a.ok, k);
    } else {
      OutsideTame(lim, s, a, k);
    }
  }

  lemma StepTame(lim: Limits, s: Sys, a: Action, k: Key)
    requires Inv(lim, s) && Bounded(lim, s) && Enabled(lim, s, a) && !a.Crash?
    ensures Tame(s, a, Apply(lim, s, a), k)
  {
    hide Inv, Bounded, Enabled, Apply, Tame, Quiet, Climbs, Ambient, Special, Mints;
    InvParts(lim, s);
    Kinds(a);
    if Mints(a) {
      MintTame(lim, s, a, k);
    } else if Quiet(a) {
      QuietTame(lim, s, a, k);
    } else if Climbs(a) {
      ClimbTame(lim, s, a, k);
    } else if Ambient(a) {
      OutsideTame(lim, s, a, k);
    } else {
      SpecialTame(lim, s, a, k);
    }
  }

  // ---------------------------------------------------------------- counting

  lemma Fewer<T>(a: set<T>, b: set<T>)
    requires a <= b
    ensures |a| <= |b|
  {
    assert b == a + (b - a);
  }

  lemma PlusOne(a: set<Key>, b: set<Key>, k: Key)
    requires a <= b + {k}
    ensures |a| <= |b| + 1
  {
    Fewer(a, b + {k});
  }

  lemma SplitCount(a: set<Key>, b: set<Key>)
    ensures |a| <= |a - b| + |b|
  {
    Fewer(a, (a - b) + b);
  }

  lemma StepBounded(lim: Limits, s: Sys, a: Action)
    requires Inv(lim, s) && Bounded(lim, s) && Enabled(lim, s, a) && !a.Crash?
    ensures Bounded(lim, Apply(lim, s, a))
  {
    var t := Apply(lim, s, a);
    StepMovesOn(lim, s, a, Key(0, 0));
    forall k ensures Tame(s, a, t, k) {
      StepTame(lim, s, a, k);
    }
    assert a.Acquire? ==> |Slots(s)| < lim.maxVms;
    hide Inv, Enabled, Apply;
    TameBounded(lim, s, a, t);
  }

  lemma TameSlots(lim: Limits, s: Sys, a: Action, t: Sys)
    requires |Slots(s)| <= lim.maxVms && forall k :: Tame(s, a, t, k)
    requires a.Acquire? ==> |Slots(s)| < lim.maxVms
    ensures |Slots(t)| <= lim.maxVms
  {
    forall k | k in Slots(t) && k !in Slots(s) ensures a == Acquire(k) {
      assert Tame(s, a, t, k);
    }
    if a.Acquire? {
      PlusOne(Slots(t), Slots(s), a.k);
    } else {
      Fewer(Slots(t), Slots(s));
    }
  }

  lemma TamePotentials(s: Sys, a: Action, t: Sys)
    requires forall k :: Tame(s, a, t, k)
    ensures s.cancelled ==> |Potentials(t)| <= |Potentials(s)|
    ensures !s.cancelled ==> |Potentials(t) - Slots(t)| <= |Potentials(s) - Slots(s)|
  {
    if s.cancelled {
      forall k | k in Potentials(t) ensures k in Potentials(s) {
        assert Tame(s, a, t, k);
      }
      Fewer(Potentials(t), Potentials(s));
    } else {
      forall k | k in Potentials(t) - Slots(t) ensures k in Potentials(s) - Slots(s) {
        assert Tame(s, a, t, k);
      }
      Fewer(Potentials(t) - Slots(t), Potentials(s) - Slots(s));
    }
  }

  lemma TameScalars(s: Sys, a: Action, t: Sys)
    requires forall k :: Tame(s, a, t, k)
    ensures t.restarts == s.restarts && (s.cancelled ==> t.cancelled)
  {
    assert Tame(s, a, t, Key(0, 0));
  }

  lemma TameExits(s: Sys, a: Action, t: Sys)
    requires forall k :: Tame(s, a, t, k)
    requires forall k :: At(s, k, Exiting) && k in s.store.mem && s.store.mem[k].state.HasMachine() ==> s.cancelled
    ensures forall k :: At(t, k, Exiting) && k in t.store.mem && t.store.mem[k].state.HasMachine() ==> t.cancelled
  {
    forall k | At(t, k, Exiting) && k in t.store.mem && t.store.mem[k].state.HasMachine() ensures t.cancelled {
      assert Tame(s, a, t, k);
    }
  }

  lemma CarriersCount(s: Sys)
    ensures |Carriers(s.store.mem)| <= |Potentials(s)|
  {
    Fewer(Carriers(s.store.mem), Potentials(s));
  }

  lemma TameBounded(lim: Limits, s: Sys, a: Action, t: Sys)
    requires Bounded(lim, s)
    requires forall k :: Tame(s, a, t, k)
    requires a.Acquire? ==> |Slots(s)| < lim.maxVms
    requires t.store.disk == s.store.disk || t.store.disk == t.store.mem
    ensures Bounded(lim, t)
  {
    hide Tame, Cap, Potentials, Slots, Carriers;
    TameScalars(s, a, t);
    TameSlots(lim, s, a, t);
    TamePotentials(s, a, t);
    TameExits(s, a, t);
    SplitCount(Potentials(t), Slots(t));
    CarriersCount(t);
    CapGrows(lim, s.restarts);
  }

  lemma RebootSets(s: Sys)
    requires s.workers == map[]
    ensures Slots(s) == {} && Potentials(s) == Carriers(s.store.mem) && Potentials(s) - Slots(s) == Potentials(s)
  {
    assert Slots(s) == {};
    assert Potentials(s) == Carriers(s.store.mem);
  }

  lemma RebootBounded(lim: Limits, s: Sys, t: Sys)
    requires Bounded(lim, s)
    requires t.workers == map[] && t.store == s.store.Reopen() && !t.cancelled && t.restarts == s.restarts + 1
    ensures Bounded(lim, t)
  {
    RebootSets(t);
    CapGrows(lim, t.restarts);
    hide Cap, Slots, Potentials, Carriers;
  }

  lemma CrashBounded(lim: Limits, s: Sys)
    requires Bounded(lim, s)
    ensures Bounded(lim, Apply(lim, s, Crash))
  {
    hide Bounded;
    RebootBounded(lim, s, Apply(lim, s, Crash));
  }

  lemma {:induction false} RunBounded(lim: Limits, s: Sys, run: seq<Action>)
    requires Inv(lim, s) && Bounded(lim, s) && Valid(lim, s, run)
    ensures Bounded(lim, After(lim, s, run))
    decreases |run|
  {
    if run != [] {
      hide Inv, Bounded, Enabled, Apply;
      StepKeepsInv(lim, s, run[0]);
      if run[0].Crash? {
        CrashBounded(lim, s);
      } else {
        StepBounded(lim, s, run[0]);
      }
      RunBounded(lim, Apply(lim, s, run[0]), run[1..]);
    }
  }

  lemma ReachedBounded(lim: Limits, run: seq<Action>)
    requires Valid(lim, Initial(), run)
    ensures Inv(lim, After(lim, Initial(), run)) && Bounded(lim, After(lim, Initial(), run))
  {
    InitialInv(lim);
    assert Slots(Initial()) == {} && Potentials(Initial()) == {} && Carriers(Initial().store.disk) == {};
    assert Bounded(lim, Initial());
    RunKeepsInv(lim, Initial(), run);
    RunBounded(lim, Initial(), run);
  }

  // ---------------------------------------------------------------- theorems

  /** At any time at most MaxConcurrentVMs workers are past the semaphore, and the records
      hold at most MaxConcurrentVMs VMs per process started so far. */
  lemma FleetBound(lim: Limits, run: seq<Action>)
    requires Valid(lim, Initial(), run)
    ensures var s := After(lim, Initial(), run);
            |Slots(s)| <= lim.maxVms && |HeldVms(s)| <= lim.maxVms * (s.restarts + 1)
  {
    hide Inv, Valid;
    ReachedBounded(lim, run);
    var s := After(lim, Initial(), run);
    ImageCount(s.store.mem, Carriers(s.store.mem), HeldVms(s));
    Fewer(Carriers(s.store.mem), Potentials(s));
  }

  lemma {:induction false} ImageCount(m: map<Key, Progress>, ks: set<Key>, vs: set<VmId>)
    requires forall v :: v in vs ==> exists k :: k in ks && k in m && m[k].vm == Some(v)
    ensures |vs| <= |ks|
  {
    if v :| v in vs {
      var k :| k in ks && k in m && m[k].vm == Some(v);
      ImageCount(m, ks - {k}, vs - {v});
    }
  }

  lemma CarrierHasSlot(lim: Limits, s: Sys, k: Key)
    requires Bounded(lim, s) && s.restarts == 0 && !s.cancelled
    requires k in s.store.mem && s.store.mem[k].state.HasMachine()
    ensures k in Slots(s) && s.workers[k].pc != Exiting
  {
    assert Cap(lim, 0) == 0;
    assert k in Potentials(s);
    assert k !in Slots(s) ==> k in Potentials(s) - Slots(s);
  }

  lemma HolderIsOwner(lim: Limits, s: Sys, h: Key, v: VmId)
    requires SoundStore(lim, s) && Wired(lim, s) && HeldBy(s.store.mem, h, v)
    ensures s.store.mem[h].state.HasMachine() && v in s.made && s.made[v].job == h
  {
    assert Sound(lim, s, h, s.store.mem[h]);
  }

  /** Until the first shutdown or crash, every held VM belongs to a worker with a slot of its own. */
  lemma FirstProcessOwnsItsVms(lim: Limits, run: seq<Action>, k: Key, v: VmId)
    requires Valid(lim, Initial(), run)
    requires After(lim, Initial(), run).restarts == 0 && !After(lim, Initial(), run).cancelled
    requires HeldBy(After(lim, Initial(), run).store.mem, k, v)
    ensures var s := After(lim, Initial(), run);
            && k in Slots(s) && s.workers[k].rec.vm == Some(v)
            && (forall h :: HeldBy(s.store.mem, h, v) ==> h == k)
  {
    hide Inv, Bounded, Valid, After, SoundStore, Wired;
    ReachedBounded(lim, run);
    var s := After(lim, Initial(), run);
    InvParts(lim, s);
    HolderIsOwner(lim, s, k, v);
    CarrierHasSlot(lim, s, k);
    assert Employed(s, k);
    forall h | HeldBy(s.store.mem, h, v) ensures h == k {
      HolderIsOwner(lim, s, h, v);
    }
  }
}
