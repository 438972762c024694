/** What the protocol guarantees over every run: at most one VM per try, keys durable
    before they are sent, durable progress that never goes back, and no recorded VM lost. */
module Safety {
  import opened Records
  import opened Protocol
  import opened Invariant
  import opened InvariantSteps

  lemma ReachedInv(lim: Limits, run: seq<Action>)
    requires Valid(lim, Initial(), run)
    ensures Inv(lim, After(lim, Initial(), run))
  {
    InitialInv(lim);
    RunKeepsInv(lim, Initial(), run);
  }

  // ---------------------------------------------------------------- one VM per try

  /** However workers crash, retry, lose replies or resend, two VMs were never created for
      the same try of the same record. */
  lemma AtMostOneVmPerTry(lim: Limits, run: seq<Action>, v: VmId, w: VmId)
    requires Valid(lim, Initial(), run)
    requires v in After(lim, Initial(), run).made && w in After(lim, Initial(), run).made
    requires SameTry(After(lim, Initial(), run).made[v], After(lim, Initial(), run).made[w])
    ensures v == w
  {
    ReachedInv(lim, run);
    var s := After(lim, Initial(), run);
    assert Hot(s, s.made[v]) && Hot(s, s.made[w]);
  }

  function VmsOf(s: Sys, k: Key, life: nat): set<VmId> {
    set v | v in s.made && s.made[v].job == k && s.made[v].life == life
  }

  /** A record's whole life costs at most one VM for the first try and one per retry. */
  lemma VmsPerRecord(lim: Limits, run: seq<Action>, k: Key, life: nat)
    requires Valid(lim, Initial(), run)
    ensures |VmsOf(After(lim, Initial(), run), k, life)| <= lim.maxRetries + 1
  {
    ReachedInv(lim, run);
    var s := After(lim, Initial(), run);
    forall v, w | v in VmsOf(s, k, life) && w in VmsOf(s, k, life) && s.made[v].retry == s.made[w].retry
      ensures v == w
    {
      AtMostOneVmPerTry(lim, run, v, w);
    }
    assert forall v :: v in VmsOf(s, k, life) ==> s.made[v] in s.sent;
    Pigeonhole(s.made, VmsOf(s, k, life), lim.maxRetries);
  }

  /** A set whose members have distinct retry numbers in 0..max has at most max + 1 members. */
  lemma {:induction false} Pigeonhole(made: map<VmId, IdemKey>, vs: set<VmId>, max: nat)
    requires forall v :: v in vs ==> v in made && made[v].retry <= max
    requires forall v, w :: v in vs && w in vs && made[v].retry == made[w].retry ==> v == w
    ensures |vs| <= max + 1
  {
    if v :| v in vs && made[v].retry == max {
      var rest := vs - {v};
      if max > 0 {
        Pigeonhole(made, rest, max - 1);
      } else {
        assert rest == {};
      }
      assert |vs| == |rest| + 1;
    } else if max > 0 {
      Pigeonhole(made, vs, max - 1);
    } else {
      assert vs == {};
    }
  }

  // ---------------------------------------------------------------- write-ahead

  /** Whenever a create request leaves, the state file already holds this record in CREATING
      with exactly the key the request carries, whatever other workers wrote meanwhile. */
  lemma KeyDurableBeforeSend(lim: Limits, run: seq<Action>, k: Key)
    requires Valid(lim, Initial(), run)
    requires Enabled(lim, After(lim, Initial(), run), Post(k))
    ensures var s := After(lim, Initial(), run);
            && k in s.store.disk && s.store.disk[k] == s.workers[k].rec
            && s.store.disk[k].state == Creating
            && Apply(lim, s, Post(k)).sent == s.sent + {s.store.disk[k].idem.value}
  {
    ReachedInv(lim, run);
    var s := After(lim, Initial(), run);
    assert Employed(s, k);
    assert Standing(s, k, s.workers[k]);
  }

  /** ... and from then on the file never offers a version of the record that would ask for
      another VM in the same try: a restart replays the key or is past it. */
  lemma SentKeyStaysCovered(lim: Limits, run: seq<Action>, i: IdemKey)
    requires Valid(lim, Initial(), run)
    ensures var s := After(lim, Initial(), run);
            Hot(s, i) && i.job in s.store.disk ==> Past(s.store.disk[i.job], i)
  {
    ReachedInv(lim, run);
    var s := After(lim, Initial(), run);
    if Hot(s, i) {
      assert Behind(s.store.disk, i);
    }
  }

  // ---------------------------------------------------------------- durable progress

  /** No stored version of `k` precedes `low`. */
  ghost predicate Floor(s: Sys, k: Key, low: Progress) {
    && (k in s.store.mem ==> NotAfter(low, s.store.mem[k]))
    && (k in s.store.disk ==> NotAfter(low, s.store.disk[k]))
    && low.life < s.nextLife
  }

  /** One step on `k`'s records: a version may be replaced by a later one or by a new life. */
  ghost predicate MovesOn(s: Sys, t: Sys, k: Key) {
    && (k in t.store.mem && k in s.store.mem ==> NotAfter(s.store.mem[k], t.store.mem[k]))
    && (k in t.store.mem && k !in s.store.mem ==> t.store.mem[k].life == s.nextLife)
    && (t.store.disk == s.store.disk || t.store.disk == t.store.mem)
    && s.nextLife <= t.nextLife
  }

  predicate Mints(a: Action) {
    a.Enter? || a.FreshKey? || a.RecordVm? || a.Retry?
  }

  lemma ClimbMovesOn(lim: Limits, s: Sys, a: Action, k: Key)
    requires SoundStore(lim, s) && Staffed(s) && Enabled(lim, s, a) && Climbs(a)
    ensures MovesOn(s, Apply(lim, s, a), k)
  {
    hide Apply, Enabled, SoundStore, Standing;
    ClimbMoves(lim, s, a);
    ClimbReady(lim, s, a);
    assert Employed(s, a.k);
  }

  lemma MintMovesOn(lim: Limits, s: Sys, a: Action, k: Key)
    requires Staffed(s) && Enabled(lim, s, a) && Mints(a)
    ensures MovesOn(s, Apply(lim, s, a), k)
  {
    assert Employed(s, a.k);
    assert Standing(s, a.k, s.workers[a.k]);
  }

  lemma StoreStays(lim: Limits, s: Sys, a: Action)
    requires (a.Spawn? || a.Exit? || a.Post? || a.TryDelete? || a.Serve?) && Enabled(lim, s, a)
    ensures var t := Apply(lim, s, a);
            && t.store == s.store && t.nextLife == s.nextLife && t.tracked == s.tracked
            && forall v :: v in s.made ==> v in t.made && t.made[v] == s.made[v]
  {
  }

  lemma StoreMoves(lim: Limits, s: Sys, a: Action, k: Key)
    requires (a.SubmitNew? || a.Close? || a.Prune?) && Enabled(lim, s, a)
    ensures var t := Apply(lim, s, a); MovesOn(s, t, k) && t.tracked == s.tracked && t.made == s.made
  {
  }

  lemma SpecialMovesOn(lim: Limits, s: Sys, a: Action, k: Key)
    requires Enabled(lim, s, a) && Special(a) && !a.Crash? && !Mints(a)
    ensures MovesOn(s, Apply(lim, s, a), k)
  {
    hide Enabled, Apply;
    if a.SubmitNew? || a.Close? || a.Prune? {
      StoreMoves(lim, s, a, k);
    } else {
      StoreStays(lim, s, a);
    }
  }

  lemma StepMovesOn(lim: Limits, s: Sys, a: Action, k: Key)
    requires Inv(lim, s) && Enabled(lim, s, a) && !a.Crash?
    ensures MovesOn(s, Apply(lim, s, a), k)
  {
    hide Inv, Enabled, Apply, Quiet, Climbs, Ambient, Special, Mints;
    InvParts(lim, s);
    Kinds(a);
    if Mints(a) {
      MintMovesOn(lim, s, a, k);
    } else if Quiet(a) {
      QuietMoves(lim, s, a);
    } else if Climbs(a) {
      ClimbMovesOn(lim, s, a, k);
    } else if Ambient(a) {
      AmbientSame(lim, s, a);
    } else {
      SpecialMovesOn(lim, s, a, k);
    }
  }

  lemma AmbientSame(lim: Limits, s: Sys, a: Action)
    requires Ambient(a) && Enabled(lim, s, a)
    ensures var t := Apply(lim, s, a);
            t.store == s.store && t.nextLife == s.nextLife && t.tracked == s.tracked && t.made == s.made
  {
  }

  lemma StepKeepsFloor(lim: Limits, s: Sys, a: Action, k: Key, low: Progress)
    requires Inv(lim, s) && Enabled(lim, s, a) && Floor(s, k, low)
    ensures Floor(Apply(lim, s, a), k, low)
  {
    hide Inv;
    if !a.Crash? {
      var t := Apply(lim, s, a);
      StepMovesOn(lim, s, a, k);
      hide Enabled, Apply;
      if k in s.store.mem && k in t.store.mem {
        NotAfterTransitive(low, s.store.mem[k], t.store.mem[k]);
      }
    }
  }

  lemma {:induction false} RunKeepsFloor(lim: Limits, s: Sys, run: seq<Action>, k: Key, low: Progress)
    requires Inv(lim, s) && Valid(lim, s, run) && Floor(s, k, low)
    ensures Floor(After(lim, s, run), k, low)
    decreases |run|
  {
    if run != [] {
      hide Inv, Floor, Enabled, Apply;
      StepKeepsInv(lim, s, run[0]);
      StepKeepsFloor(lim, s, run[0], k, low);
      RunKeepsFloor(lim, Apply(lim, s, run[0]), run[1..], k, low);
    }
  }

  lemma DiskSound(lim: Limits, s: Sys, k: Key)
    requires Inv(lim, s) && k in s.store.disk
    ensures Sound(lim, s, k, s.store.disk[k]) && Floor(s, k, s.store.disk[k])
  {
  }

  /** The pair (retry, rank) of a record on disk never decreases over any run, crashes
      included; retries stay within the limit and a terminal record no longer changes. */
  lemma DurableProgress(lim: Limits, past: seq<Action>, run: seq<Action>, k: Key)
    requires Valid(lim, Initial(), past)
    requires Valid(lim, After(lim, Initial(), past), run)
    requires k in After(lim, Initial(), past).store.disk
    requires k in After(lim, After(lim, Initial(), past), run).store.disk
    ensures var a, b := After(lim, Initial(), past).store.disk[k], After(lim, After(lim, Initial(), past), run).store.disk[k];
            && NotAfter(a, b) && b.retry <= lim.maxRetries
            && (a.state.Terminal() && b.life == a.life ==> b == a)
            && (b.life == a.life && b.state.Rank() < a.state.Rank() ==> b.retry > a.retry)
  {
    hide Inv;
    ReachedInv(lim, past);
    var s := After(lim, Initial(), past);
    RunKeepsInv(lim, s, run);
    var t := After(lim, s, run);
    DiskSound(lim, s, k);
    DiskSound(lim, t, k);
    RunKeepsFloor(lim, s, run, k, s.store.disk[k]);
  }

  // ---------------------------------------------------------------- recorded VMs

  /** A VM whose ID any successful file write ever covered and that still lives is held by a
      non-terminal record both in memory and on disk, unless three deletes in a row failed. */
  lemma NoDurableVmLost(lim: Limits, run: seq<Action>, v: VmId)
    requires Valid(lim, Initial(), run)
    ensures var s := After(lim, Initial(), run);
            v in s.durable && v in s.live && v !in s.gaveUp ==>
              v in s.made && HeldBy(s.store.mem, s.made[v].job, v) && HeldBy(s.store.disk, s.made[v].job, v)
  {
    ReachedInv(lim, run);
    var s := After(lim, Initial(), run);
    if v in s.durable && v in s.live && v !in s.gaveUp {
      assert v in s.tracked && !Gone(s, v);
    }
  }

  /** A record names a VM exactly from WAIT_READY to DELETING, and it is the VM the server
      created for this very try; QUEUED and CREATING records name none. */
  lemma RecordNamesItsVm(lim: Limits, run: seq<Action>, k: Key)
    requires Valid(lim, Initial(), run) && k in After(lim, Initial(), run).store.disk
    ensures var s := After(lim, Initial(), run);
            var r := s.store.disk[k];
            !r.state.Terminal() ==>
              && (r.vm.Some? <==> r.state.HasMachine())
              && (r.vm.Some? ==>
                    && r.vm.value in s.made && r.idem == Some(s.made[r.vm.value]) && r.vm.value in s.durable
                    && s.made[r.vm.value].job == k && s.made[r.vm.value].life == r.life && s.made[r.vm.value].retry == r.retry)
  {
    ReachedInv(lim, run);
    var s := After(lim, Initial(), run);
    assert Sound(lim, s, k, s.store.disk[k]);
  }

  /** `v`'s record no longer answers for it. */
  ghost predicate Dropped(s: Sys, t: Sys, k: Key, v: VmId) {
    HeldBy(s.store.mem, k, v) && !HeldBy(t.store.mem, k, v)
  }

  /** In one run of the process, a record drops a VM, becomes terminal or is pruned with one,
      only once that VM is gone or three deletes failed. */
  lemma DroppedOnlyWhenGone(lim: Limits, run: seq<Action>, a: Action, k: Key, v: VmId)
    requires Valid(lim, Initial(), run) && Enabled(lim, After(lim, Initial(), run), a) && !a.Crash?
    requires Dropped(After(lim, Initial(), run), Apply(lim, After(lim, Initial(), run), a), k, v)
    ensures Gone(Apply(lim, After(lim, Initial(), run), a), v)
  {
    hide Inv, Enabled, Apply;
    ReachedInv(lim, run);
    var s := After(lim, Initial(), run);
    StepKeepsInv(lim, s, a);
    HeldIsTracked(lim, s, k, v);
    StepTracks(lim, s, a);
    InvParts(lim, Apply(lim, s, a));
  }

  lemma HeldIsTracked(lim: Limits, s: Sys, k: Key, v: VmId)
    requires Inv(lim, s) && HeldBy(s.store.mem, k, v)
    ensures v in s.tracked && v in s.made && s.made[v].job == k
  {
    assert Sound(lim, s, k, s.store.mem[k]);
  }

  lemma StepTracks(lim: Limits, s: Sys, a: Action)
    requires Enabled(lim, s, a) && !a.Crash?
    ensures s.tracked <= Apply(lim, s, a).tracked
    ensures forall v :: v in s.made ==> v in Apply(lim, s, a).made && Apply(lim, s, a).made[v] == s.made[v]
  {
    hide Enabled, Apply, Quiet, Climbs, Ambient, Special;
    Kinds(a);
    if Quiet(a) {
      QuietMoves(lim, s, a);
    } else if Climbs(a) {
      ClimbMoves(lim, s, a);
    } else if Ambient(a) {
      AmbientSame(lim, s, a);
    } else {
      SpecialTracks(lim, s, a);
    }
  }

  lemma MintTracks(lim: Limits, s: Sys, a: Action)
    requires Enabled(lim, s, a) && Mints(a)
    ensures s.tracked <= Apply(lim, s, a).tracked && Apply(lim, s, a).made == s.made
  {
  }

  lemma SpecialTracks(lim: Limits, s: Sys, a: Action)
    requires Enabled(lim, s, a) && Special(a) && !a.Crash?
    ensures s.tracked <= Apply(lim, s, a).tracked
    ensures forall v :: v in s.made ==> v in Apply(lim, s, a).made && Apply(lim, s, a).made[v] == s.made[v]
  {
    hide Enabled, Apply;
    if Mints(a) {
      MintTracks(lim, s, a);
    } else if a.SubmitNew? || a.Close? || a.Prune? {
      StoreMoves(lim, s, a, Key(0, 0));
    } else {
      StoreStays(lim, s, a);
    }
  }

  // ---------------------------------------------------------------- nonces

  /** The key was sent or is part of a record somewhere. */
  ghost predicate Uses(s: Sys, i: IdemKey) {
    i in s.sent || exists k :: Carries(s, k, i)
  }

  ghost predicate Carries(s: Sys, k: Key, i: IdemKey) {
    || (k in s.store.mem && s.store.mem[k].idem == Some(i))
    || (k in s.store.disk && s.store.disk[k].idem == Some(i))
    || (k in s.workers && s.workers[k].rec.idem == Some(i))
  }

  ghost predicate Unrepeated(s: Sys) {
    && (forall i :: Uses(s, i) ==> i.nonce < s.nextNonce)
    && (forall i, j :: Uses(s, i) && Uses(s, j) && i.nonce == j.nonce ==> i == j)
  }

  /** At most `i` is new, and only with a new nonce. */
  ghost predicate Adds(s: Sys, t: Sys, i: IdemKey) {
    && s.nextNonce <= t.nextNonce
    && (forall j :: j in t.sent ==> Uses(s, j))
    && (forall k, j :: Carries(t, k, j) ==> Uses(s, j) || (j == i && i.nonce == s.nextNonce < t.nextNonce))
  }

  lemma AddsKeeps(s: Sys, t: Sys, i: IdemKey)
    requires Unrepeated(s) && Adds(s, t, i)
    ensures Unrepeated(t)
  {
    forall j | Uses(t, j) ensures Uses(s, j) || (j == i && i.nonce == s.nextNonce < t.nextNonce) {
      if j !in t.sent {
        var k :| Carries(t, k, j);
      }
    }
    hide Uses;
  }

  lemma QuietAdds(lim: Limits, s: Sys, a: Action, i: IdemKey)
    requires Quiet(a) && Enabled(lim, s, a)
    ensures Adds(s, Apply(lim, s, a), i)
  {
    QuietMoves(lim, s, a);
    hide Apply;
    assert forall k, j :: Carries(Apply(lim, s, a), k, j) ==> Carries(s, k, j);
  }

  lemma ClimbAdds(lim: Limits, s: Sys, a: Action, i: IdemKey)
    requires Climbs(a) && Enabled(lim, s, a)
    ensures Adds(s, Apply(lim, s, a), i)
  {
    ClimbMoves(lim, s, a);
    hide Apply, Enabled, Climbs;
    forall k, j | Carries(Apply(lim, s, a), k, j) ensures Uses(s, j) {
      assert Carries(s, k, j) || Carries(s, a.k, j);
    }
  }

  /** The worker of `k` stores a version with the key it had, none, or a new one. */
  ghost predicate Minted(s: Sys, t: Sys, k: Key, ok: bool) {
    && k in s.workers && k in t.workers && t.sent == s.sent && s.nextNonce <= t.nextNonce
    && t.store == s.store.Upsert(k, t.workers[k].rec, ok) && t.workers == s.workers[k := t.workers[k]]
    && var idem := t.workers[k].rec.idem;
       idem == s.workers[k].rec.idem || idem == None
       || (idem == Some(Mint(s, k, s.workers[k].rec)) && t.nextNonce == s.nextNonce + 1)
  }

  lemma MintForm(lim: Limits, s: Sys, a: Action)
    requires Mints(a) && Enabled(lim, s, a)
    ensures Minted(s, Apply(lim, s, a), a.k, a.ok)
  {
  }

  lemma MintAdds(lim: Limits, s: Sys, a: Action)
    requires Mints(a) && Enabled(lim, s, a)
    ensures a.k in s.workers && Adds(s, Apply(lim, s, a), Mint(s, a.k, s.workers[a.k].rec))
  {
    hide Enabled, Apply;
    MintForm(lim, s, a);
    var t := Apply(lim, s, a);
    var idem := t.workers[a.k].rec.idem;
    forall k, j | Carries(t, k, j) ensures Uses(s, j) || idem == Some(j) {
      assert idem == Some(j) || Carries(s, k, j);
    }
    assert idem == s.workers[a.k].rec.idem && idem.Some? ==> Carries(s, a.k, idem.value);
  }

  lemma PostAdds(lim: Limits, s: Sys, k: Key, i: IdemKey)
    requires Enabled(lim, s, Post(k))
    ensures Adds(s, Apply(lim, s, Post(k)), i)
  {
    var t := Apply(lim, s, Post(k));
    assert Carries(s, k, s.workers[k].rec.idem.value);
    assert forall h, j :: Carries(t, h, j) ==> Carries(s, h, j);
  }

  lemma OutsideSame(lim: Limits, s: Sys, a: Action)
    requires (Ambient(a) || a.Serve?) && Enabled(lim, s, a)
    ensures var t := Apply(lim, s, a);
            t.sent == s.sent && t.nextNonce == s.nextNonce && t.store == s.store && t.workers == s.workers
  {
  }

  lemma OutsideAdds(lim: Limits, s: Sys, a: Action, i: IdemKey)
    requires (Ambient(a) || a.Serve?) && Enabled(lim, s, a)
    ensures Adds(s, Apply(lim, s, a), i)
  {
    hide Enabled, Apply;
    OutsideSame(lim, s, a);
    assert forall k, j :: Carries(Apply(lim, s, a), k, j) ==> Carries(s, k, j);
  }

  lemma DeleteAdds(lim: Limits, s: Sys, a: Action, i: IdemKey)
    requires a.TryDelete? && Enabled(lim, s, a)
    ensures Adds(s, Apply(lim, s, a), i)
  {
    DeleteTo(lim, s, a.k, a.acted, a.ok);
    hide Apply;
    assert forall k, j :: Carries(Apply(lim, s, a), k, j) ==> Carries(s, k, j);
  }

  lemma OtherAdds(lim: Limits, s: Sys, a: Action, i: IdemKey)
    requires (a.SubmitNew? || a.Spawn? || a.Exit? || a.Close? || a.Prune? || a.Crash?) && Enabled(lim, s, a)
    ensures Adds(s, Apply(lim, s, a), i)
  {
    var t := Apply(lim, s, a);
    assert t.sent == s.sent && t.nextNonce == s.nextNonce;
    assert forall k, j :: Carries(t, k, j) ==> Carries(s, k, j);
  }

  lemma StepUnrepeated(lim: Limits, s: Sys, a: Action)
    requires Unrepeated(s) && Enabled(lim, s, a)
    ensures Unrepeated(Apply(lim, s, a))
  {
    hide Unrepeated, Adds, Enabled, Apply, Quiet, Climbs, Ambient;
    Kinds(a);
    var i := IdemKey(Key(0, 0), 0, 0, 0);
    if Mints(a) {
      MintAdds(lim, s, a);
      i := Mint(s, a.k, s.workers[a.k].rec);
    } else if Quiet(a) {
      QuietAdds(lim, s, a, i);
    } else if Climbs(a) {
      ClimbAdds(lim, s, a, i);
    } else if a.Post? {
      PostAdds(lim, s, a.k, i);
    } else if a.TryDelete? {
      DeleteAdds(lim, s, a, i);
    } else if Ambient(a) || a.Serve? {
      OutsideAdds(lim, s, a, i);
    } else {
      OtherAdds(lim, s, a, i);
    }
    AddsKeeps(s, Apply(lim, s, a), i);
  }

  lemma {:induction false} RunUnrepeated(lim: Limits, s: Sys, run: seq<Action>)
    requires Unrepeated(s) && Valid(lim, s, run)
    ensures Unrepeated(After(lim, s, run))
    decreases |run|
  {
    if run != [] {
      hide Unrepeated, Enabled, Apply;
      StepUnrepeated(lim, s, run[0]);
      RunUnrepeated(lim, Apply(lim, s, run[0]), run[1..]);
    }
  }

  /** No two create requests of a run ever show the same nonce. */
  lemma NoncesNeverRepeat(lim: Limits, run: seq<Action>, i: IdemKey, j: IdemKey)
    requires Valid(lim, Initial(), run)
    requires i in After(lim, Initial(), run).sent && j in After(lim, Initial(), run).sent && i.nonce == j.nonce
    ensures i == j && i.nonce < After(lim, Initial(), run).nextNonce
  {
    assert Unrepeated(Initial());
    RunUnrepeated(lim, Initial(), run);
    var s := After(lim, Initial(), run);
    assert Uses(s, i) && Uses(s, j);
  }
}
