/** The chokepoint where events become work: at most one worker per job, at most one record
    per job, and never a second VM because an event came twice. Every effect is an action of
    the protocol. */
module Scaler {
  import opened Records
  import opened Protocol
  import opened Invariant
  import opened InvariantSteps
  import opened Runs
  import opened Safety
  import Fleet
  import Reconciler

  /** An event from the webhook or the poller. */
  datatype Event = Event(action: string, jobId: int, runAttempt: int)
  {
    /** GitHub may leave the attempt out; deduplication needs a stable key. */
    function Key(): Key {
      Records.Key(jobId, if runAttempt < 1 then 1 else runAttempt)
    }
  }

  const INBOX := 8

  /** The protocol actions that an event causes: none or one. */
  function Effect(s: Sys, ev: Event, ok: bool): seq<Action> {
    var k := ev.Key();
    if ev.action == "waiting" || k in s.workers then []
    else if ev.action == "queued" && k !in s.store.mem then [SubmitNew(k, ok)]
    else if (ev.action == "queued" || ev.action == "completed") && k in s.store.mem && !s.store.mem[k].state.Terminal()
    then [Spawn(k)]
    else []
  }

  /** Delivery to an active worker's channel; a full channel drops the event. */
  function Delivered(inbox: map<Key, seq<Event>>, k: Key, ev: Event): map<Key, seq<Event>> {
    if k in inbox && |inbox[k]| < INBOX then inbox[k := inbox[k] + [ev]] else inbox
  }

  class Scaler {
    const lim: Limits
    ghost var trace: seq<Action>
    var g: Sys
    var active: map<Key, seq<Event>>

    ghost predicate Valid()
      reads this
    {
      && Protocol.Valid(lim, Initial(), trace) && g == After(lim, Initial(), trace)
      && Inv(lim, g)
      && active.Keys == g.workers.Keys
      && (forall k :: k in active ==> |active[k]| <= INBOX)
    }

    constructor (lim: Limits)
      ensures Valid() && this.lim == lim && g == Initial() && active == map[]
    {
      this.lim, trace, g, active := lim, [], Initial(), map[];
      new;
      InitialInv(lim);
    }

    /** The system takes one step. */
    ghost predicate Stepped(was: Sys, a: Action)
      reads this
    {
      Enabled(lim, was, a) && g == Apply(lim, was, a)
    }

    method Step(a: Action)
      requires Protocol.Valid(lim, Initial(), trace) && g == After(lim, Initial(), trace) && Inv(lim, g)
      requires Enabled(lim, g, a)
      modifies `trace, `g
      ensures Protocol.Valid(lim, Initial(), trace) && g == After(lim, Initial(), trace) && Inv(lim, g)
      ensures trace == old(trace) + [a] && Stepped(old(g), a)
    {
      hide Inv, Enabled, Apply;
      StepKeepsInv(lim, g, a);
      Append(lim, Initial(), trace, a);
      trace := trace + [a];
      g := Apply(lim, g, a);
    }

    /** A worker starts unless one is there already. */
    method Spawn(k: Key)
      requires Valid() && k in g.store.mem && !g.store.mem[k].state.Terminal()
      modifies this
      ensures Valid()
      ensures trace == old(trace) + if k in old(g).workers then [] else [Protocol.Spawn(k)]
      ensures active == if k in old(active) then old(active) else old(active)[k := []]
      ensures g.store == old(g).store && Slots(g) == Slots(old(g))
      ensures forall h :: h in old(g).workers ==> h in g.workers && g.workers[h] == old(g).workers[h]
    {
      hide Inv;
      if k in active {
        return;
      }
      Step(Protocol.Spawn(k));
      active := active[k := []];
    }

    /** Routes one event. */
    method Submit(ev: Event, stored: bool)
      requires Valid()
      modifies this
      ensures Valid()
      ensures trace == old(trace) + Effect(old(g), ev, stored)
      ensures ev.action == "waiting" ==> active == old(active)
      ensures ev.action != "waiting" && ev.Key() in old(active) ==> active == Delivered(old(active), ev.Key(), ev)
      ensures ev.Key() !in old(active) && ev.Key() in active ==> active == old(active)[ev.Key() := []]
    {
      hide Inv;
      var k := ev.Key();
      assert old(trace) + [] == old(trace);
      if ev.action == "waiting" {
        return;
      }
      if k in active {
        if |active[k]| < INBOX {
          active := active[k := active[k] + [ev]];
        }
        return;
      }
      if ev.action == "queued" {
        if k in g.store.mem {
          if !g.store.mem[k].state.Terminal() {
            Spawn(k);
          }
          return;
        }
        Step(SubmitNew(k, stored));
        if stored {
          active := active[k := []];
        }
      } else if ev.action == "completed" {
        if k in g.store.mem && !g.store.mem[k].state.Terminal() {
          Spawn(k);
        }
      }
    }

    /** Start-up: every unfinished record gets exactly one worker; records, other workers and
        slots stay as they are. */
    method Resume()
      requires Valid()
      modifies this
      ensures Valid()
      ensures active.Keys == old(active).Keys + set k | k in g.store.mem && !g.store.mem[k].state.Terminal()
      ensures forall k :: k in old(g).workers ==> k in g.workers && g.workers[k] == old(g).workers[k]
      ensures g.store == old(g).store && Slots(g) == Slots(old(g))
    {
      hide *;
      var todo := g.store.mem.Keys;
      while todo != {}
        invariant Valid() && g.store == old(g).store && Slots(g) == Slots(old(g))
        invariant todo <= g.store.mem.Keys
        invariant active.Keys == old(active).Keys + set k | k in g.store.mem && k !in todo && !g.store.mem[k].state.Terminal()
        invariant forall k :: k in old(g).workers ==> k in g.workers && g.workers[k] == old(g).workers[k]
        decreases |todo|
      {
        var k :| k in todo;
        if !g.store.mem[k].state.Terminal() {
          Spawn(k);
        }
        todo := todo - {k};
      }
    }

    method Active(k: Key) returns (yes: bool)
      requires Valid()
      ensures yes <==> k in g.workers
    {
      yes := k in active;
    }

    /** runJob returned: its entry disappears with it. */
    method Left(k: Key)
      requires Valid() && At(g, k, Exiting)
      modifies this
      ensures Valid() && trace == old(trace) + [Exit(k)]
      ensures active == old(active) - {k}
    {
      hide Inv;
      Step(Exit(k));
      active := active - {k};
    }
  }

  /** What an event does is possible, and a second copy of it does nothing more: no second
      record, no second worker. */
  lemma EffectOnce(lim: Limits, s: Sys, ev: Event, ok: bool)
    ensures Protocol.Valid(lim, s, Effect(s, ev, ok))
    ensures var t := After(lim, s, Effect(s, ev, ok));
            && (ok || ev.Key() in s.store.mem ==> Effect(t, ev, true) == [])
            && |t.workers| <= |s.workers| + 1 && |t.store.mem| <= |s.store.mem| + 1
  {
    if Effect(s, ev, ok) != [] {
      var a := Effect(s, ev, ok)[0];
      if a.SubmitNew? {
        SubmitCounts(lim, s, ev.Key(), ok);
      } else {
        SpawnCounts(lim, s, ev.Key());
      }
      hide Enabled, Apply;
      assert Effect(s, ev, ok) == [a];
      Prepend(lim, s, a, []);
      assert [a] + [] == [a];
    }
  }

  lemma SubmitCounts(lim: Limits, s: Sys, k: Key, ok: bool)
    requires k !in s.workers && k !in s.store.mem
    ensures Enabled(lim, s, SubmitNew(k, ok))
    ensures var t := Apply(lim, s, SubmitNew(k, ok));
            && k in t.store.mem && (ok ==> k in t.workers)
            && |t.workers| <= |s.workers| + 1 && |t.store.mem| <= |s.store.mem| + 1
  {
    Bigger(s.workers[k := Worker(Fresh(s), WaitSlot)], s.workers, k);
    Bigger(s.store.mem[k := Fresh(s)], s.store.mem, k);
  }

  lemma SpawnCounts(lim: Limits, s: Sys, k: Key)
    requires k !in s.workers && k in s.store.mem && !s.store.mem[k].state.Terminal()
    ensures Enabled(lim, s, Protocol.Spawn(k))
    ensures var t := Apply(lim, s, Protocol.Spawn(k));
            k in t.workers && |t.workers| <= |s.workers| + 1 && t.store == s.store
  {
    Bigger(s.workers[k := Worker(s.store.mem[k], WaitSlot)], s.workers, k);
  }

  lemma Bigger<V>(a: map<Key, V>, b: map<Key, V>, k: Key)
    requires a.Keys <= b.Keys + {k}
    ensures |a| <= |b| + 1
  {
    assert |a| == |a.Keys| && |b| == |b.Keys|;
    Fleet.Fewer(a.Keys, b.Keys + {k});
  }

  // ---------------------------------------------------------------- finished jobs

  /** The job's record is terminal, and its worker, if still there, is about to leave. */
  ghost predicate Over(s: Sys, k: Key) {
    k in s.store.mem && s.store.mem[k].state.Terminal() && (k in s.workers ==> s.workers[k].pc == Exiting)
  }

  /** `k` keeps its record and asks for nothing. */
  ghost predicate Rests(s: Sys, t: Sys, k: Key)
    requires k in s.store.mem
  {
    && Over(t, k) && t.store.mem[k] == s.store.mem[k]
    && forall i :: i in t.sent && i.job == k ==> i in s.sent
  }

  predicate Leaves(a: Action, k: Key) {
    a == Crash || (a.Prune? && a.k == k)
  }

  lemma QuietRests(lim: Limits, s: Sys, a: Action, k: Key)
    requires Over(s, k) && Enabled(lim, s, a) && Quiet(a)
    ensures Rests(s, Apply(lim, s, a), k)
  {
    QuietMoves(lim, s, a);
    hide Apply;
  }

  lemma ClimbRests(lim: Limits, s: Sys, a: Action, k: Key)
    requires Over(s, k) && Enabled(lim, s, a) && Climbs(a)
    ensures Rests(s, Apply(lim, s, a), k)
  {
    ClimbMoves(lim, s, a);
    hide Apply;
  }

  lemma PostRests(lim: Limits, s: Sys, h: Key, k: Key)
    requires Inv(lim, s) && Over(s, k) && Enabled(lim, s, Post(h))
    ensures Rests(s, Apply(lim, s, Post(h)), k)
  {
    assert Employed(s, h);
    assert Standing(s, h, s.workers[h]);
    assert Sound(lim, s, h, s.store.mem[h]);
    hide Inv, Standing, Sound;
  }

  lemma DeleteRests(lim: Limits, s: Sys, a: Action, k: Key)
    requires Over(s, k) && Enabled(lim, s, a) && a.TryDelete?
    ensures Rests(s, Apply(lim, s, a), k)
  {
    DeleteTo(lim, s, a.k, a.acted, a.ok);
    hide Apply;
  }

  lemma OutsideRests(lim: Limits, s: Sys, a: Action, k: Key)
    requires Over(s, k) && Enabled(lim, s, a) && Ambient(a)
    ensures Rests(s, Apply(lim, s, a), k)
  {
  }

  lemma MintRests(lim: Limits, s: Sys, a: Action, k: Key)
    requires Over(s, k) && Enabled(lim, s, a) && Mints(a)
    ensures Rests(s, Apply(lim, s, a), k)
  {
  }

  lemma OtherRests(lim: Limits, s: Sys, a: Action, k: Key)
    requires Over(s, k) && Enabled(lim, s, a) && Special(a) && !a.Post? && !a.TryDelete? && !Mints(a) && !Leaves(a, k)
    ensures Rests(s, Apply(lim, s, a), k)
  {
  }

  lemma StepRests(lim: Limits, s: Sys, a: Action, k: Key)
    requires Inv(lim, s) && Over(s, k) && Enabled(lim, s, a) && !Leaves(a, k)
    ensures Rests(s, Apply(lim, s, a), k)
  {
    hide Inv, Over, Rests, Enabled, Apply, Leaves, Quiet, Climbs, Ambient, Special, Mints;
    Kinds(a);
    if Quiet(a) {
      QuietRests(lim, s, a, k);
    } else if Climbs(a) {
      ClimbRests(lim, s, a, k);
    } else if a.Post? {
      PostRests(lim, s, a.k, k);
    } else if Mints(a) {
      MintRests(lim, s, a, k);
    } else if a.TryDelete? {
      DeleteRests(lim, s, a, k);
    } else if Ambient(a) {
      OutsideRests(lim, s, a, k);
    } else {
      OtherRests(lim, s, a, k);
    }
  }

  lemma {:induction false} RunRests(lim: Limits, s: Sys, run: seq<Action>, k: Key)
    requires Inv(lim, s) && Over(s, k) && Protocol.Valid(lim, s, run) && forall a :: a in run ==> !Leaves(a, k)
    ensures Rests(s, After(lim, s, run), k)
    decreases |run|
  {
    assert k in s.store.mem;
    if run != [] {
      hide Inv, Enabled, Apply, Leaves;
      StepKeepsInv(lim, s, run[0]);
      StepRests(lim, s, run[0], k);
      RunRests(lim, Apply(lim, s, run[0]), run[1..], k);
    }
  }

  /** A finished job stays finished: until its record is pruned or the process crashes, no
      event of it has any effect, its record does not change, and no request leaves for it. */
  lemma FinishedForGood(lim: Limits, past: seq<Action>, run: seq<Action>, ev: Event, ok: bool)
    requires Protocol.Valid(lim, Initial(), past) && Protocol.Valid(lim, After(lim, Initial(), past), run)
    requires var s := After(lim, Initial(), past); ev.Key() in s.store.mem && s.store.mem[ev.Key()].state.Terminal()
    requires forall a :: a in run ==> !Leaves(a, ev.Key())
    ensures var s, k := After(lim, Initial(), past), ev.Key();
            var t := After(lim, s, run);
            && k in t.store.mem && t.store.mem[k] == s.store.mem[k] && Effect(t, ev, ok) == []
            && forall i :: i in t.sent && i.job == k ==> i in s.sent
  {
    ReachedInv(lim, past);
    var s, k := After(lim, Initial(), past), ev.Key();
    if k in s.workers && s.workers[k].pc != Exiting {
      EmployedUnfinished(s, k);
    }
    hide Inv, Leaves;
    RunRests(lim, s, run, k);
  }

  // ---------------------------------------------------------------- the sweep's steps

  lemma PruneStep(lim: Limits, s: Sys, k: Key, ok: bool)
    requires k in s.store.mem && s.store.mem[k].state.Terminal()
    ensures Enabled(lim, s, Prune(k, ok)) && Apply(lim, s, Prune(k, ok)).store.mem == s.store.mem - {k}
  {
  }

  lemma CloseStep(lim: Limits, s: Sys, k: Key, ok: bool)
    requires k in s.store.mem && k !in s.workers && s.listing.Some?
    requires s.store.mem[k].state == JobDone || s.store.mem[k].state == Deleting
    ensures Enabled(lim, s, Close(k, ok))
    ensures Apply(lim, s, Close(k, ok)).store.mem == s.store.mem[k := s.store.mem[k].(state := Complete)]
    ensures Apply(lim, s, Close(k, ok)).live ==
            if s.store.mem[k].vm.Some? && s.store.mem[k].vm.value in s.listing.value then s.live - {s.store.mem[k].vm.value} else s.live
  {
  }

  /** The verdicts of a sweep's walk, taken on the current record, are protocol actions. */
  lemma VerdictIsStep(lim: Limits, s: Sys, k: Key, e: Reconciler.Entry, accepted: bool, now: int, ok: bool)
    requires k in s.store.mem && s.store.mem[k] == e.progress && s.listing.Some?
    ensures match Reconciler.Visit(e, k in s.workers, s.listing.value, accepted, now)
            case Keep => true
            case Drop => Enabled(lim, s, Prune(k, ok)) && Apply(lim, s, Prune(k, ok)).store.mem == s.store.mem - {k}
            case Finish =>
              && Enabled(lim, s, Close(k, ok))
              && Apply(lim, s, Close(k, ok)).store.mem == s.store.mem[k := Reconciler.Finished(e, now).progress]
              && Apply(lim, s, Close(k, ok)).live ==
                   if Reconciler.Reissues(e, k in s.workers, s.listing.value) then s.live - {e.progress.vm.value} else s.live
            case Adopt => Enabled(lim, s, Protocol.Spawn(k))
  {
    hide Apply, Enabled;
    match Reconciler.Visit(e, k in s.workers, s.listing.value, accepted, now)
    case Keep =>
    case Drop => PruneStep(lim, s, k, ok);
    case Finish => CloseStep(lim, s, k, ok);
    case Adopt => SpawnCounts(lim, s, k);
  }

  /** ... and so is an orphan's deletion, HasVM being answered for it from the current records. */
  lemma OrphanIsStep(lim: Limits, s: Sys, seen: map<VmId, int>, look: Reconciler.Look, grace: int, v: VmId)
    requires v in look.owned <==> HasVm(s.store.mem, v)
    requires Reconciler.Due(seen, look, grace, v)
    ensures Enabled(lim, s, CollectOrphan(v))
  {
  }

  /** A VM whose ID reached its record (by `recorded`, in this process) within the grace
      period of its creation is never due for collection while it lives, unless three deletes
      of it failed. */
  lemma YoungVmSpared(lim: Limits, run: seq<Action>, hist: seq<Reconciler.Pass>, look: Reconciler.Look, grace: int,
                      v: VmId, created: int, recorded: int)
    requires Protocol.Valid(lim, Initial(), run)
    requires recorded - created <= grace
    requires forall j :: 0 <= j < |hist| && hist[j].Saw? && hist[j].look.Orphan(v) ==> created <= hist[j].look.now
    requires recorded <= look.now ==> v in After(lim, Initial(), run).tracked
    requires v in look.owned <==> HasVm(After(lim, Initial(), run).store.mem, v)
    requires v in After(lim, Initial(), run).live && v !in After(lim, Initial(), run).gaveUp
    ensures !Reconciler.Due(Reconciler.Clock(hist, grace), look, grace, v)
  {
    ReachedInv(lim, run);
    var s := After(lim, Initial(), run);
    if v in s.tracked {
      assert HeldBy(s.store.mem, s.made[v].job, v);
    }
    hide Inv;
    Reconciler.YoungVmNotCollected(hist, look, grace, v, created, recorded);
  }
}
