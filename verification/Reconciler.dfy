/** The safety net: the orphan clock, the walk over the records, and why they converge. */
module Reconciler {
  import opened Records

  datatype Vm = Vm(id: VmId, status: string)

  /** A record as the reconciler sees it. */
  datatype Entry = Entry(progress: Progress, updatedAt: int)

  const RETENTION: int := 24 * 3600 * 1_000_000_000

  /** One pass over the VMs. `owned`: the IDs for which HasVM answered yes when asked,
      `accepts`: the IDs whose DELETE the server would accept. */
  datatype Look = Look(now: int, vms: seq<Vm>, owned: set<VmId>, accepts: set<VmId>)
  {
    /** The server lists each VM once. */
    ghost predicate Distinct() {
      forall i, j :: 0 <= i < j < |vms| ==> vms[i].id != vms[j].id
    }

    /** `v` is listed, not deleting, and no live record references it. */
    predicate Orphan(v: VmId) {
      exists i :: 0 <= i < |vms| && vms[i].id == v && vms[i].status != "deleting" && v !in owned
    }
  }

  /** A sweep either got a listing or gave up. */
  datatype Pass = Missed | Saw(look: Look)

  function Ids(vms: seq<Vm>): set<VmId> {
    set i | 0 <= i < |vms| :: vms[i].id
  }

  // ---------------------------------------------------------------- the orphan clock

  /** The grace period of `v` has run out. */
  predicate Due(seen: map<VmId, int>, look: Look, grace: int, v: VmId) {
    look.Orphan(v) && v in seen && look.now - seen[v] >= grace
  }

  /** The clock after one look: exactly the orphans that were not deleted just now, each
      with the time it was first seen in an unbroken row of looks. */
  function Tick(seen: map<VmId, int>, look: Look, grace: int): map<VmId, int> {
    map v | v in Ids(look.vms) && look.Orphan(v) && !(Due(seen, look, grace, v) && v in look.accepts)
      :: if v in seen then seen[v] else look.now
  }

  function TickPass(seen: map<VmId, int>, p: Pass, grace: int): map<VmId, int> {
    match p
    case Missed => seen
    case Saw(look) => Tick(seen, look, grace)
  }

  function Clock(hist: seq<Pass>, grace: int): map<VmId, int> {
    if hist == [] then map[] else TickPass(Clock(hist[..|hist| - 1], grace), hist[|hist| - 1], grace)
  }

  /** Every successful pass from `m` on saw `v` as an orphan. */
  ghost predicate OrphanSince(hist: seq<Pass>, m: nat, v: VmId) {
    && m < |hist| && hist[m].Saw?
    && forall j :: m <= j < |hist| && hist[j].Saw? ==> hist[j].look.Orphan(v)
  }

  lemma {:induction false} ClockMeans(hist: seq<Pass>, grace: int, v: VmId)
    requires v in Clock(hist, grace)
    ensures exists m: nat :: OrphanSince(hist, m, v) && hist[m].look.now == Clock(hist, grace)[v]
  {
    var n := |hist| - 1;
    var front := hist[..n];
    if v in Clock(front, grace) {
      ClockMeans(front, grace, v);
      var m: nat :| OrphanSince(front, m, v) && front[m].look.now == Clock(front, grace)[v];
      assert forall j :: 0 <= j < n ==> hist[j] == front[j];
      assert OrphanSince(hist, m, v);
    } else {
      assert OrphanSince(hist, n, v);
    }
  }

  /** The orphan path deletes a VM only if an unbroken row of successful passes, spanning at
      least the grace period, all listed it undeleted and unreferenced. Failed listings,
      failed deletes and vanishing VMs in between change nothing about that. */
  lemma OrphanGrace(hist: seq<Pass>, look: Look, grace: int, v: VmId)
    requires Due(Clock(hist, grace), look, grace, v)
    ensures look.Orphan(v)
    ensures exists m: nat :: OrphanSince(hist, m, v) && look.now - hist[m].look.now >= grace
  {
    ClockMeans(hist, grace, v);
  }

  /** A VM that is only ever unreferenced during a window shorter than the grace period, such
      as the time between its creation and its record, is never collected. */
  lemma YoungVmNotCollected(hist: seq<Pass>, look: Look, grace: int, v: VmId, created: int, recorded: int)
    requires recorded - created <= grace
    requires forall j :: 0 <= j < |hist| && hist[j].Saw? && hist[j].look.Orphan(v) ==> created <= hist[j].look.now
    requires look.Orphan(v) ==> look.now < recorded
    ensures !Due(Clock(hist, grace), look, grace, v)
  {
    if Due(Clock(hist, grace), look, grace, v) {
      OrphanGrace(hist, look, grace, v);
    }
  }

  // ---------------------------------------------------------------- the walk over the records

  predicate HasVm(recs: map<Key, Entry>, v: VmId) {
    exists k :: k in recs && recs[k].progress.Holds(v)
  }

  datatype Verdict = Keep | Drop | Finish | Adopt

  /** What the walk does with one record; `deletes` tells whether a re-issued DELETE of its VM
      is accepted. */
  function Visit(e: Entry, active: bool, live: set<VmId>, deletes: bool, now: int): Verdict {
    if e.progress.state.Terminal() then (if now - e.updatedAt > RETENTION then Drop else Keep)
    else if e.progress.state == Deleting || e.progress.state == JobDone then
      if active then Keep
      else if e.progress.vm.Some? && e.progress.vm.value in live && !deletes then Keep
      else Finish
    else if active then Keep
    else Adopt
  }

  /** The walk re-issues the DELETE of this record's VM. */
  predicate Reissues(e: Entry, active: bool, live: set<VmId>) {
    && (e.progress.state == Deleting || e.progress.state == JobDone)
    && !active && e.progress.vm.Some? && e.progress.vm.value in live
  }

  function Finished(e: Entry, now: int): Entry {
    Entry(e.progress.(state := Complete), now)
  }

  /** The records after a walk that visits every one once. */
  function Walked(recs: map<Key, Entry>, active: set<Key>, live: set<VmId>, accepts: set<VmId>, now: int): map<Key, Entry> {
    map k | k in recs && Outcome(recs, k, active, live, accepts, now) != Drop
      :: if Outcome(recs, k, active, live, accepts, now) == Finish then Finished(recs[k], now) else recs[k]
  }

  function Outcome(recs: map<Key, Entry>, k: Key, active: set<Key>, live: set<VmId>, accepts: set<VmId>, now: int): Verdict
    requires k in recs
  {
    var e := recs[k];
    Visit(e, k in active, live, e.progress.vm.Some? && e.progress.vm.value in accepts, now)
  }

  // ---------------------------------------------------------------- whole sweeps

  function Owned(recs: map<Key, Entry>): set<VmId> {
    set k | k in recs && !recs[k].progress.state.Terminal() && recs[k].progress.vm.Some? :: recs[k].progress.vm.value
  }

  lemma OwnedIff(recs: map<Key, Entry>, v: VmId)
    ensures v in Owned(recs) <==> HasVm(recs, v)
  {
    if v in Owned(recs) {
      var k :| k in recs && !recs[k].progress.state.Terminal() && recs[k].progress.vm == Some(v);
      assert recs[k].progress.Holds(v);
    }
  }

  /** The server removes a VM at once or marks it first. */
  function Removed(vms: map<VmId, string>, v: VmId, atOnce: set<VmId>): map<VmId, string> {
    if v in atOnce then vms - {v} else if v in vms then vms[v := "deleting"] else vms
  }

  function RemovedAll(vms: map<VmId, string>, vs: set<VmId>, atOnce: set<VmId>): map<VmId, string> {
    map v | v in vms && !(v in vs && v in atOnce) :: if v in vs then "deleting" else vms[v]
  }

  /** The reconciler's world: the records, the server's VMs with their status, the clock. */
  datatype World = World(recs: map<Key, Entry>, vms: map<VmId, string>, seen: map<VmId, int>)

  /** What happens to it: VMs disappear on their own, or a sweep fails to list or goes through. */
  datatype Round =
    | Vanish(gone: set<VmId>)
    | NoListing
    | Full(now: int, vms: seq<Vm>, owned: set<VmId>, accepts: set<VmId>, atOnce: set<VmId>)

  /** `vms` lists exactly the server's VMs, each once. */
  ghost predicate Lists(vms: seq<Vm>, cloud: map<VmId, string>) {
    && Ids(vms) == cloud.Keys
    && (forall i :: 0 <= i < |vms| ==> vms[i].id in cloud && vms[i].status == cloud[vms[i].id])
    && (forall i, j :: 0 <= i < j < |vms| ==> vms[i].id != vms[j].id)
  }

  function LookOf(r: Round): Look
    requires r.Full?
  {
    Look(r.now, r.vms, r.owned, r.accepts)
  }

  function DueNow(seen: map<VmId, int>, look: Look, grace: int): set<VmId> {
    set v | v in Ids(look.vms) && Due(seen, look, grace, v) && v in look.accepts
  }

  /** The VMs whose DELETE the walk issues again and the server accepts. */
  function Reissued(recs: map<Key, Entry>, active: set<Key>, live: set<VmId>, accepts: set<VmId>): set<VmId> {
    set k | k in recs && Reissues(recs[k], k in active, live) && recs[k].progress.vm.value in accepts
      :: recs[k].progress.vm.value
  }

  function Swept(w: World, active: set<Key>, r: Round, grace: int): World {
    match r
    case Vanish(gone) => w.(vms := w.vms - gone)
    case NoListing => w
    case Full(now, vms, _, accepts, atOnce) =>
      World(
        Walked(w.recs, active, Ids(vms), accepts, now),
        RemovedAll(RemovedAll(w.vms, DueNow(w.seen, LookOf(r), grace), atOnce),
                   Reissued(w.recs, active, Ids(vms), accepts), atOnce),
        Tick(w.seen, LookOf(r), grace))
  }

  // ---------------------------------------------------------------- convergence

  /** Nothing is left to be done by workers. */
  ghost predicate Drained(recs: map<Key, Entry>) {
    forall k :: k in recs ==>
      recs[k].progress.state.Terminal() || recs[k].progress.state == JobDone || recs[k].progress.state == Deleting
  }

  ghost predicate AllTerminal(recs: map<Key, Entry>) {
    forall k :: k in recs ==> recs[k].progress.state.Terminal()
  }

  /** Every VM that is not going away has been on the orphan clock since `t` or earlier. */
  ghost predicate Ticking(w: World, t: int) {
    forall v :: v in w.vms && w.vms[v] != "deleting" ==> v in w.seen && w.seen[v] <= t
  }

  /** HasVM answered from the records of `w`. */
  ghost predicate Told(w: World, r: Round)
    requires r.Full?
  {
    forall v :: v in Ids(r.vms) ==> (v in r.owned <==> HasVm(w.recs, v))
  }

  ghost predicate Faithful(w: World, r: Round) {
    r.Full? ==> Lists(r.vms, w.vms) && Told(w, r)
  }

  ghost predicate ErrorFree(w: World, r: Round) {
    r.Full? && Faithful(w, r) && Ids(r.vms) <= r.accepts
  }

  lemma OrphansAre(w: World, r: Round, v: VmId)
    requires r.Full? && Faithful(w, r)
    ensures LookOf(r).Orphan(v) <==> v in w.vms && w.vms[v] != "deleting" && v !in Owned(w.recs)
  {
    OwnedIff(w.recs, v);
    if v in w.vms {
      assert v in Ids(r.vms);
    }
  }

  lemma DrainedReissues(recs: map<Key, Entry>, live: set<VmId>, accepts: set<VmId>)
    requires Drained(recs)
    ensures forall v :: v in Owned(recs) && v in live && v in accepts ==> v in Reissued(recs, {}, live, accepts)
  {
    forall v | v in Owned(recs) && v in live && v in accepts ensures v in Reissued(recs, {}, live, accepts) {
      var k :| k in recs && !recs[k].progress.state.Terminal() && recs[k].progress.vm == Some(v);
      assert Reissues(recs[k], false, live);
    }
  }

  lemma FirstSweepSettles(w: World, r: Round, grace: int)
    requires Drained(w.recs) && ErrorFree(w, r)
    requires forall v :: v in w.seen ==> w.seen[v] <= r.now
    ensures AllTerminal(Swept(w, {}, r, grace).recs) && Ticking(Swept(w, {}, r, grace), r.now)
  {
    var t := Swept(w, {}, r, grace);
    forall v | v in t.vms && t.vms[v] != "deleting" ensures v in t.seen && t.seen[v] <= r.now {
      OrphansAre(w, r, v);
      assert v in Ids(r.vms);
      assert v in r.accepts;
      DrainedReissues(w.recs, Ids(r.vms), r.accepts);
    }
  }

  lemma NothingOwned(recs: map<Key, Entry>, live: set<VmId>, accepts: set<VmId>)
    requires AllTerminal(recs)
    ensures Owned(recs) == {} && Reissued(recs, {}, live, accepts) == {}
  {
  }

  lemma RoundKeepsSettled(w: World, r: Round, grace: int, t: int)
    requires AllTerminal(w.recs) && Ticking(w, t) && Faithful(w, r)
    ensures AllTerminal(Swept(w, {}, r, grace).recs) && Ticking(Swept(w, {}, r, grace), t)
  {
    if r.Full? {
      NothingOwned(w.recs, Ids(r.vms), r.accepts);
      var u := Swept(w, {}, r, grace);
      forall v | v in u.vms && u.vms[v] != "deleting" ensures v in u.seen && u.seen[v] <= t {
        OrphansAre(w, r, v);
        assert v in Ids(r.vms);
      }
    }
  }

  lemma LastSweepClears(w: World, r: Round, grace: int, t: int)
    requires AllTerminal(w.recs) && Ticking(w, t) && ErrorFree(w, r) && r.now - t >= grace
    ensures AllTerminal(Swept(w, {}, r, grace).recs)
    ensures forall v :: v in Swept(w, {}, r, grace).vms ==> Swept(w, {}, r, grace).vms[v] == "deleting"
  {
    NothingOwned(w.recs, Ids(r.vms), r.accepts);
    var u := Swept(w, {}, r, grace);
    forall v | v in u.vms ensures u.vms[v] == "deleting" {
      OrphansAre(w, r, v);
      assert v in Ids(r.vms);
    }
  }

  /** Any number of further rounds, with whatever failures. */
  function SweptAll(w: World, rounds: seq<Round>, grace: int): World
    decreases |rounds|
  {
    if rounds == [] then w else SweptAll(Swept(w, {}, rounds[0], grace), rounds[1..], grace)
  }

  ghost predicate AllFaithful(w: World, rounds: seq<Round>, grace: int)
    decreases |rounds|
  {
    rounds != [] ==> Faithful(w, rounds[0]) && AllFaithful(Swept(w, {}, rounds[0], grace), rounds[1..], grace)
  }

  lemma {:induction false} RoundsKeepSettled(w: World, rounds: seq<Round>, grace: int, t: int)
    requires AllTerminal(w.recs) && Ticking(w, t) && AllFaithful(w, rounds, grace)
    ensures AllTerminal(SweptAll(w, rounds, grace).recs) && Ticking(SweptAll(w, rounds, grace), t)
    decreases |rounds|
  {
    if rounds != [] {
      RoundKeepsSettled(w, rounds[0], grace, t);
      RoundsKeepSettled(Swept(w, {}, rounds[0], grace), rounds[1..], grace, t);
    }
  }

  /** Once no worker is left and every record is past its job, two error-free sweeps at least
      the grace period apart, with any failures in between, leave every record terminal (or
      pruned) and no VM that is not already being deleted. */
  lemma Convergence(w: World, first: Round, between: seq<Round>, last: Round, grace: int)
    requires Drained(w.recs) && ErrorFree(w, first)
    requires forall v :: v in w.seen ==> w.seen[v] <= first.now
    requires AllFaithful(Swept(w, {}, first, grace), between, grace)
    requires ErrorFree(SweptAll(Swept(w, {}, first, grace), between, grace), last)
    requires last.now - first.now >= grace
    ensures var end := Swept(SweptAll(Swept(w, {}, first, grace), between, grace), {}, last, grace);
            AllTerminal(end.recs) && forall v :: v in end.vms ==> end.vms[v] == "deleting"
  {
    hide Swept, Ticking, AllTerminal;
    FirstSweepSettles(w, first, grace);
    RoundsKeepSettled(Swept(w, {}, first, grace), between, grace, first.now);
    LastSweepClears(SweptAll(Swept(w, {}, first, grace), between, grace), last, grace, first.now);
  }

  // ---------------------------------------------------------------- the code

  /** The VMs the server knows, with their status. */
  class Cloud {
    var vms: map<VmId, string>

    constructor (vms: map<VmId, string>)
      ensures this.vms == vms
    {
      this.vms := vms;
    }

    /** DELETE; a missing VM counts as deleted. */
    method Delete(v: VmId, accepts: set<VmId>, atOnce: set<VmId>) returns (ok: bool)
      modifies this
      ensures ok <==> v in accepts
      ensures vms == if ok then Removed(old(vms), v, atOnce) else old(vms)
    {
      ok := v in accepts;
      if ok {
        vms := Removed(vms, v, atOnce);
      }
    }
  }

  class Sweeper {
    const grace: int
    const cloud: Cloud
    var firstSeen: map<VmId, int>
    var recs: map<Key, Entry>

    constructor (grace: int, cloud: Cloud, recs: map<Key, Entry>)
      ensures firstSeen == map[] && this.recs == recs && this.cloud == cloud && this.grace == grace
    {
      this.grace, this.cloud, this.firstSeen, this.recs := grace, cloud, map[], recs;
    }

    ghost function Abstract(): World
      reads this, cloud
    {
      World(recs, cloud.vms, firstSeen)
    }

    /** One VM of the listing. */
    method VisitVm(vm: Vm, look: Look, atOnce: set<VmId>)
      requires vm.id in Ids(look.vms)
      requires look.Orphan(vm.id) <==> vm.status != "deleting" && vm.id !in look.owned
      modifies `firstSeen, cloud
      ensures firstSeen == TickIn(old(firstSeen), look, {vm.id}, grace)
      ensures cloud.vms == RemovedAll(old(cloud.vms), DueIn(old(firstSeen), look, {vm.id}, grace), atOnce)
    {
      ghost var deleted: set<VmId> := {};
      if vm.status == "deleting" || vm.id in look.owned {
        firstSeen := firstSeen - {vm.id};
      } else if vm.id !in firstSeen {
        firstSeen := firstSeen[vm.id := look.now];
      } else if look.now - firstSeen[vm.id] >= grace {
        var ok := cloud.Delete(vm.id, look.accepts, atOnce);
        if ok {
          firstSeen := firstSeen - {vm.id};
          deleted := {vm.id};
        }
      }
      assert deleted == DueIn(old(firstSeen), look, {vm.id}, grace);
      assert cloud.vms == RemovedAll(old(cloud.vms), deleted, atOnce);
    }

    /** Deletes orphans whose grace is over and forgets candidates that are none any more. */
    method SweepOrphans(look: Look, atOnce: set<VmId>)
      requires look.Distinct()
      modifies `firstSeen, cloud
      ensures firstSeen == Tick(old(firstSeen), look, grace)
      ensures cloud.vms == RemovedAll(old(cloud.vms), DueNow(old(firstSeen), look, grace), atOnce)
    {
      ghost var seen, vms := firstSeen, cloud.vms;
      var live: set<VmId> := {};
      ListedOnce(look);
      TickBounds(seen, look, grace);
      NoneRemoved(vms, atOnce);
      hide *;
      for n := 0 to |look.vms|
        invariant live == Ids(look.vms[..n])
        invariant firstSeen == TickIn(seen, look, live, grace)
        invariant cloud.vms == RemovedAll(vms, DueIn(seen, look, live, grace), atOnce)
      {
        var vm := look.vms[n];
        TickMore(seen, look, live, vm.id, grace);
        RemoveMore(vms, DueIn(seen, look, live, grace), DueIn(seen, look, {vm.id}, grace), atOnce);
        VisitVm(vm, look, atOnce);
        live := live + {vm.id};
      }
      assert look.vms[..|look.vms|] == look.vms;
      firstSeen := map v | v in firstSeen && v in live :: firstSeen[v];
    }

    /** One record of the walk. */
    method VisitRecord(k: Key, active: set<Key>, live: set<VmId>, accepts: set<VmId>, atOnce: set<VmId>, now: int)
      returns (adopt: bool)
      requires k in recs
      modifies `recs, cloud
      ensures var v := Outcome(old(recs), k, active, live, accepts, now);
              && (adopt <==> v == Adopt)
              && recs == (match v
                          case Drop => old(recs) - {k}
                          case Finish => old(recs)[k := Finished(old(recs)[k], now)]
                          case _ => old(recs))
      ensures cloud.vms == RemovedAll(old(cloud.vms), ReissuedIn(old(recs), {k}, active, live, accepts), atOnce)
    {
      adopt := false;
      ghost var again: set<VmId> := if Reissues(recs[k], k in active, live) && recs[k].progress.vm.value in accepts
        then {recs[k].progress.vm.value} else {};
      assert again == ReissuedIn(recs, {k}, active, live, accepts);
      NoneRemoved(cloud.vms, atOnce);
      var rec := recs[k];
      if rec.progress.state.Terminal() {
        if now - rec.updatedAt > RETENTION {
          recs := recs - {k};
        }
      } else if rec.progress.state == Deleting || rec.progress.state == JobDone {
        if k in active {
          return;
        }
        if rec.progress.vm.Some? && rec.progress.vm.value in live {
          assert Removed(cloud.vms, rec.progress.vm.value, atOnce) == RemovedAll(cloud.vms, {rec.progress.vm.value}, atOnce);
          var ok := cloud.Delete(rec.progress.vm.value, accepts, atOnce);
          if !ok {
            return;
          }
        }
        recs := recs[k := Entry(rec.progress.(state := Complete), now)];
      } else if k !in active {
        adopt := true;
      }
    }

    /** Visits every record once; the order does not matter. Returns the records to re-adopt. */
    method Walk(active: set<Key>, live: set<VmId>, accepts: set<VmId>, atOnce: set<VmId>, now: int)
      returns (adopted: set<Key>)
      modifies `recs, cloud
      ensures recs == Walked(old(recs), active, live, accepts, now)
      ensures cloud.vms == RemovedAll(old(cloud.vms), Reissued(old(recs), active, live, accepts), atOnce)
      ensures adopted == AdoptedIn(old(recs), old(recs).Keys, active, live, accepts, now)
    {
      adopted := {};
      ghost var was, vms := recs, cloud.vms;
      var todo := recs.Keys;
      PartlyBounds(was, active, live, accepts, now);
      NoneRemoved(vms, atOnce);
      hide *;
      assert was.Keys - todo == {};
      while todo != {}
        invariant todo <= was.Keys
        invariant recs == Partly(was, was.Keys - todo, active, live, accepts, now)
        invariant cloud.vms == RemovedAll(vms, ReissuedIn(was, was.Keys - todo, active, live, accepts), atOnce)
        invariant adopted == AdoptedIn(was, was.Keys - todo, active, live, accepts, now)
        decreases |todo|
      {
        var k :| k in todo;
        PartlyMore(was, was.Keys - todo, k, active, live, accepts, now);
        RemoveMore(vms, ReissuedIn(was, was.Keys - todo, active, live, accepts), ReissuedIn(was, {k}, active, live, accepts), atOnce);
        var adopt := VisitRecord(k, active, live, accepts, atOnce, now);
        if adopt {
          adopted := adopted + {k};
        }
        assert was.Keys - (todo - {k}) == was.Keys - todo + {k};
        todo := todo - {k};
      }
      assert was.Keys - todo == was.Keys;
    }

    /** A whole sweep is one round of the world, the registrations aside. Each answer of HasVM
        is the one given when its VM was visited. */
    method Sweep(r: Round, active: set<Key>) returns (adopted: set<Key>)
      requires r.NoListing? || (r.Full? && Lists(r.vms, cloud.vms))
      modifies `firstSeen, `recs, cloud
      ensures Abstract() == Swept(old(Abstract()), active, r, grace)
      ensures adopted == if r.NoListing? then {} else
                AdoptedIn(old(recs), old(recs).Keys, active, Ids(r.vms), r.accepts, r.now)
    {
      adopted := {};
      if r.NoListing? {
        return;
      }
      SweepOrphans(Look(r.now, r.vms, r.owned, r.accepts), r.atOnce);
      adopted := Walk(active, Ids(r.vms), r.accepts, r.atOnce, r.now);
    }
  }

  /** The records when those of `done` have been visited. */
  function Partly(recs: map<Key, Entry>, done: set<Key>, active: set<Key>, live: set<VmId>, accepts: set<VmId>, now: int): map<Key, Entry> {
    map k | k in recs && !(k in done && Outcome(recs, k, active, live, accepts, now) == Drop)
      :: if k in done && Outcome(recs, k, active, live, accepts, now) == Finish then Finished(recs[k], now) else recs[k]
  }

  function ReissuedIn(recs: map<Key, Entry>, done: set<Key>, active: set<Key>, live: set<VmId>, accepts: set<VmId>): set<VmId> {
    set k | k in done && k in recs && Reissues(recs[k], k in active, live) && recs[k].progress.vm.value in accepts
      :: recs[k].progress.vm.value
  }

  /** Non-terminal records before JOB_DONE that no worker owns. */
  function AdoptedIn(recs: map<Key, Entry>, done: set<Key>, active: set<Key>, live: set<VmId>, accepts: set<VmId>, now: int): set<Key> {
    set k | k in done && k in recs && Outcome(recs, k, active, live, accepts, now) == Adopt
  }

  lemma RemoveMore(vms: map<VmId, string>, vs: set<VmId>, more: set<VmId>, atOnce: set<VmId>)
    ensures RemovedAll(RemovedAll(vms, vs, atOnce), more, atOnce) == RemovedAll(vms, vs + more, atOnce)
  {
  }

  lemma NoneRemoved(vms: map<VmId, string>, atOnce: set<VmId>)
    ensures forall none: set<VmId> :: none == {} ==> RemovedAll(vms, none, atOnce) == vms
  {
  }

  lemma PartlyMore(recs: map<Key, Entry>, done: set<Key>, k: Key,
                   active: set<Key>, live: set<VmId>, accepts: set<VmId>, now: int)
    requires k in recs && k !in done
    ensures var p := Partly(recs, done, active, live, accepts, now);
            && k in p && p[k] == recs[k]
            && Outcome(p, k, active, live, accepts, now) == Outcome(recs, k, active, live, accepts, now)
            && ReissuedIn(p, {k}, active, live, accepts) == ReissuedIn(recs, {k}, active, live, accepts)
            && Partly(recs, done + {k}, active, live, accepts, now) ==
               (match Outcome(recs, k, active, live, accepts, now)
                case Drop => p - {k}
                case Finish => p[k := Finished(recs[k], now)]
                case _ => p)
    ensures AdoptedIn(recs, done + {k}, active, live, accepts, now) ==
            AdoptedIn(recs, done, active, live, accepts, now) +
            (if Outcome(recs, k, active, live, accepts, now) == Adopt then {k} else {})
    ensures ReissuedIn(recs, done + {k}, active, live, accepts) ==
            ReissuedIn(recs, done, active, live, accepts) + ReissuedIn(recs, {k}, active, live, accepts)
  {
    hide Visit, Reissues;
  }

  lemma PartlyBounds(recs: map<Key, Entry>, active: set<Key>, live: set<VmId>, accepts: set<VmId>, now: int)
    ensures Partly(recs, {}, active, live, accepts, now) == recs
    ensures Partly(recs, recs.Keys, active, live, accepts, now) == Walked(recs, active, live, accepts, now)
    ensures AdoptedIn(recs, {}, active, live, accepts, now) == {}
    ensures ReissuedIn(recs, {}, active, live, accepts) == {}
    ensures ReissuedIn(recs, recs.Keys, active, live, accepts) == Reissued(recs, active, live, accepts)
  {
    hide Visit, Reissues;
  }

  /** The clock when the VMs of `done` have been visited. */
  function TickIn(seen: map<VmId, int>, look: Look, done: set<VmId>, grace: int): map<VmId, int> {
    map v | v in seen.Keys + done &&
            (if v in done then look.Orphan(v) && !(Due(seen, look, grace, v) && v in look.accepts) else v in seen)
      :: if v in seen then seen[v] else look.now
  }

  function DueIn(seen: map<VmId, int>, look: Look, done: set<VmId>, grace: int): set<VmId> {
    set v | v in done && Due(seen, look, grace, v) && v in look.accepts
  }

  lemma TickMore(seen: map<VmId, int>, look: Look, done: set<VmId>, v: VmId, grace: int)
    requires v !in done
    ensures TickIn(TickIn(seen, look, done, grace), look, {v}, grace) == TickIn(seen, look, done + {v}, grace)
    ensures DueIn(TickIn(seen, look, done, grace), look, {v}, grace) == DueIn(seen, look, {v}, grace)
    ensures DueIn(seen, look, done + {v}, grace) == DueIn(seen, look, done, grace) + DueIn(seen, look, {v}, grace)
  {
  }

  lemma TickBounds(seen: map<VmId, int>, look: Look, grace: int)
    ensures TickIn(seen, look, {}, grace) == seen
    ensures (map v | v in TickIn(seen, look, Ids(look.vms), grace) && v in Ids(look.vms) :: TickIn(seen, look, Ids(look.vms), grace)[v])
         == Tick(seen, look, grace)
    ensures DueIn(seen, look, {}, grace) == {} && DueIn(seen, look, Ids(look.vms), grace) == DueNow(seen, look, grace)
  {
  }

  lemma ListedOnce(look: Look)
    requires look.Distinct()
    ensures Ids(look.vms[..0]) == {}
    ensures forall n :: 0 <= n < |look.vms| ==>
              && look.vms[n].id in Ids(look.vms) && look.vms[n].id !in Ids(look.vms[..n])
              && Ids(look.vms[..n + 1]) == Ids(look.vms[..n]) + {look.vms[n].id}
              && (look.Orphan(look.vms[n].id) <==> look.vms[n].status != "deleting" && look.vms[n].id !in look.owned)
  {
  }
}
