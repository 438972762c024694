/** What every reachable state of the protocol satisfies. */
module Invariant {
  import opened Records
  import opened Protocol

  // ---------------------------------------------------------------- records

  ghost predicate Mine(s: Sys, k: Key, r: Progress, i: IdemKey) {
    i.job == k && i.life == r.life && i.retry == r.retry && i.nonce < s.nextNonce
  }

  /** Fields agree with the state: no VM before WAIT_READY, no key before CREATING, and
      from WAIT_READY on exactly the VM the server created for this record's key. */
  ghost predicate Sound(lim: Limits, s: Sys, k: Key, r: Progress) {
    && r.life < s.nextLife
    && r.retry <= lim.maxRetries
    && match r.state
       case Queued => r.vm == None && r.idem == None
       case Creating => r.vm == None && r.idem.Some? && Mine(s, k, r, r.idem.value)
       case Complete => true
       case Failed => true
       case _ =>
         && r.vm.Some? && r.idem.Some? && Mine(s, k, r, r.idem.value)
         && r.idem.value in s.answers && s.answers[r.idem.value] == Created(r.vm.value)
  }

  ghost predicate SoundStore(lim: Limits, s: Sys) {
    && (forall k :: k in s.store.mem ==> Sound(lim, s, k, s.store.mem[k]))
    && (forall k :: k in s.store.disk ==> Sound(lim, s, k, s.store.disk[k]))
    && (forall k :: k in s.store.mem && k in s.store.disk ==> NotAfter(s.store.disk[k], s.store.mem[k]))
  }

  // ---------------------------------------------------------------- workers

  ghost predicate Durable(s: Sys, k: Key, r: Progress) {
    k in s.store.disk && s.store.disk[k] == r
  }

  ghost predicate Gone(s: Sys, v: VmId) {
    v !in s.live || v in s.gaveUp
  }

  /** What a worker knows at each of its program points. */
  ghost predicate Standing(s: Sys, k: Key, w: Worker) {
    match w.pc
    case WaitSlot => !w.rec.state.Terminal()
    case Dispatch => !w.rec.state.Terminal()
    case Send => w.rec.state == Creating && Durable(s, k, w.rec)
    case Await => w.rec.state == Creating && Durable(s, k, w.rec) && w.rec.idem.Some? && w.rec.idem.value in s.sent
    case GotVm(v) =>
      && w.rec.state == Creating && Durable(s, k, w.rec)
      && w.rec.idem.Some? && w.rec.idem.value in s.answers && s.answers[w.rec.idem.value] == Created(v)
    case Refused =>
      && w.rec.state == Creating && Durable(s, k, w.rec)
      && w.rec.idem.Some? && w.rec.idem.value in s.answers && s.answers[w.rec.idem.value] == Rejected
    case Backoff => w.rec.state == Creating && Durable(s, k, w.rec)
    case Work => w.rec.state.HasMachine()
    case Cleanup(tries, final) =>
      tries <= 2 && w.rec.state.HasMachine() && (if final then w.rec.state == Deleting else w.rec.state.Rank() <= 5)
    case Freed => w.rec.state == Deleting && (w.rec.vm.Some? ==> Gone(s, w.rec.vm.value))
    case Erred(_) => !w.rec.state.Terminal() && w.rec.state.Rank() <= 5 && (w.rec.vm.Some? ==> Gone(s, w.rec.vm.value))
    case Pace => w.rec.state == Queued
    case Exiting => true
  }

  ghost predicate Employed(s: Sys, k: Key) {
    k in s.workers && s.workers[k].pc != Exiting
  }

  ghost predicate Staffed(s: Sys) {
    forall k :: Employed(s, k) ==>
      k in s.store.mem && s.store.mem[k] == s.workers[k].rec && Standing(s, k, s.workers[k])
  }

  // ---------------------------------------------------------------- network and server

  ghost predicate Wired(lim: Limits, s: Sys) {
    && (forall i :: i in s.sent ==> i.nonce < s.nextNonce && i.life < s.nextLife && i.retry <= lim.maxRetries)
    && (forall i :: i in s.answers ==> i in s.sent)
    && (forall i :: i in s.answers && s.answers[i].Created? ==>
          s.answers[i].vm in s.made && s.made[s.answers[i].vm] == i)
    && (forall v :: v in s.made ==> s.made[v] in s.answers && s.answers[s.made[v]] == Created(v))
    && (forall v :: v in s.live ==> v in s.made)
    && (forall v :: v in s.older ==> v in s.made)
  }

  /** A request that created a VM or still may. */
  ghost predicate Hot(s: Sys, i: IdemKey) {
    i in s.sent && (i in s.answers ==> s.answers[i].Created?)
  }

  /** A record that will not ask for a VM under (i.life, i.retry) with any key other than `i`. */
  ghost predicate Past(r: Progress, i: IdemKey) {
    || r.life > i.life
    || (r.life == i.life && r.retry > i.retry)
    || (r.life == i.life && r.retry == i.retry && r.state != Queued && (r.state == Creating ==> r.idem == Some(i)))
  }

  ghost predicate Behind(m: map<Key, Progress>, i: IdemKey) {
    i.job in m ==> Past(m[i.job], i)
  }

  ghost predicate SameTry(i: IdemKey, j: IdemKey) {
    i.job == j.job && i.life == j.life && i.retry == j.retry
  }

  /** The heart of the matter: hot requests are behind every stored version of their
      record, and each try has at most one of them. */
  ghost predicate OneShot(s: Sys) {
    && (forall i :: Hot(s, i) ==> Behind(s.store.mem, i) && Behind(s.store.disk, i))
    && (forall i, j :: Hot(s, i) && Hot(s, j) && SameTry(i, j) ==> i == j)
  }

  // ---------------------------------------------------------------- tracking of VM IDs

  ghost predicate HeldBy(m: map<Key, Progress>, k: Key, v: VmId) {
    k in m && m[k].Holds(v)
  }

  /** A VM ID that was recorded is still held by its record, or the VM is gone. */
  ghost predicate Tracking(s: Sys) {
    && s.durable <= s.tracked
    && (forall v :: v in s.tracked ==> v in s.made)
    && (forall v :: v in s.tracked ==> Gone(s, v) || HeldBy(s.store.mem, s.made[v].job, v))
    && (forall v :: v in s.durable ==> Gone(s, v) || (v in s.made && HeldBy(s.store.disk, s.made[v].job, v)))
    && (forall k :: k in s.store.mem && s.store.mem[k].state.HasMachine() ==>
          s.store.mem[k].vm.Some? && s.store.mem[k].vm.value in s.tracked)
    && (forall k :: k in s.store.disk && s.store.disk[k].state.HasMachine() ==>
          s.store.disk[k].vm.Some? && s.store.disk[k].vm.value in s.durable)
  }

  /** A record past its job without a worker was left there by an earlier process, so its
      VM is older than any listing this process has taken. */
  ghost predicate Sweepable(s: Sys) {
    && (forall k :: k in s.store.mem && Leftover(s, k) && s.store.mem[k].vm.Some? ==>
          s.store.mem[k].vm.value in s.older)
    && (s.listing.Some? ==> forall v :: v in s.older && v in s.live ==> v in s.listing.value)
  }

  /** The record is in JOB_DONE or DELETING and no worker has begun to release its VM. */
  ghost predicate Leftover(s: Sys, k: Key)
    requires k in s.store.mem
  {
    && (s.store.mem[k].state == JobDone || s.store.mem[k].state == Deleting)
    && (k in s.workers ==> s.workers[k].pc == WaitSlot || s.workers[k].pc == Exiting)
  }

  ghost predicate Inv(lim: Limits, s: Sys) {
    && SoundStore(lim, s)
    && Staffed(s)
    && Wired(lim, s)
    && OneShot(s)
    && Tracking(s)
    && Sweepable(s)
  }

  lemma InitialInv(lim: Limits)
    ensures Inv(lim, Initial())
  {
  }
}
