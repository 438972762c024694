/** The VM lifecycle protocol as one step machine. Job workers, the reconciler, the
    poller, the durable store, the mini-control server, an asynchronous network and
    crashes interleave freely; every step is an `Action`. */
module Protocol {
  import opened Records

  /** What the server has committed under an idempotency key. */
  datatype Answer = Created(vm: VmId) | Rejected

  /** Where a worker stands between two of its atomic actions. */
  datatype Pc =
    | WaitSlot                              // runJob, waiting for the semaphore
    | Dispatch                              // about to run attempt
    | Send                                  // createVM: key is durable, request not sent
    | Await                                 // createVM: request is out
    | GotVm(vm: VmId)                       // createVM returned a VM, not yet recorded
    | Refused                               // createVM saw a capacity rejection
    | Backoff                               // createVM waits before asking again
    | Work                                  // waiting for readiness, bootstrapping, monitoring
    | Cleanup(tries: nat, final: bool)      // deleteVM loop; final: the DELETING block
    | Freed                                 // deleteVM of the DELETING block is over
    | Erred(retryable: bool)                // attempt returned an error
    | Pace                                  // runJob paces before the next attempt
    | Exiting                               // runJob returned

  datatype Worker = Worker(rec: Progress, pc: Pc)

  datatype Limits = Limits(maxVms: nat, maxRetries: nat)

  /** The whole system. Fields after `live` are history that no step consults. */
  datatype Sys = Sys(
    store: Image<Progress>,
    workers: map<Key, Worker>,
    cancelled: bool,
    listing: Option<set<VmId>>,             // the running sweep's VM listing
    nextLife: nat,
    nextNonce: nat,
    sent: set<IdemKey>,                     // create requests the network may still deliver
    answers: map<IdemKey, Answer>,          // the server's idempotency table
    live: set<VmId>,                        // VMs not deleted and not deleting
    made: map<VmId, IdemKey>,               // every VM ever created, and its request
    tracked: set<VmId>,                     // VM IDs recorded by this process or found on disk
    durable: set<VmId>,                     // VM IDs covered by a successful file write
    gaveUp: set<VmId>,                      // VMs whose delete failed three times in a row
    older: set<VmId>,                       // VMs made before the last restart
    restarts: nat)

  datatype Action =
    | SubmitNew(k: Key, ok: bool)
    | Spawn(k: Key)
    | Acquire(k: Key)
    | Enter(k: Key, ok: bool)
    | Post(k: Key)
    | PostFails(k: Key)
    | Reply(k: Key)
    | RateLimited(k: Key)
    | ReplyLost(k: Key)
    | FreshKey(k: Key, ok: bool)
    | Resend(k: Key)
    | GiveUp(k: Key)
    | Vanish(k: Key, ok: bool)
    | RecordVm(k: Key, ok: bool)
    | Begin(k: Key)
    | Advance(k: Key, to: JobState, ok: bool)
    | Save(k: Key, ok: bool)
    | Fail(k: Key)
    | Stop(k: Key)
    | Release(k: Key, ok: bool)
    | TryDelete(k: Key, acted: bool, ok: bool)
    | Finish(k: Key, ok: bool)
    | Settle(k: Key, ok: bool)
    | Moot(k: Key, ok: bool)
    | Retry(k: Key, ok: bool)
    | Again(k: Key)
    | Abort(k: Key)
    | Exit(k: Key)
    | TakeListing
    | Close(k: Key, ok: bool)
    | Prune(k: Key, ok: bool)
    | CollectOrphan(id: VmId)
    | Serve(idem: IdemKey, answer: Answer)
    | VmDies(id: VmId)
    | Shutdown
    | Crash

  function Initial(): Sys {
    Sys(Image(map[], map[]), map[], false, None, 0, 0, {}, map[], {}, map[], {}, {}, {}, {}, 0)
  }

  predicate At(s: Sys, k: Key, pc: Pc) {
    k in s.workers && s.workers[k].pc == pc
  }

  /** Keys of the workers that hold a slot of the semaphore. */
  function Slots(s: Sys): set<Key> {
    set k | k in s.workers && s.workers[k].pc != WaitSlot
  }

  predicate HasVm(m: map<Key, Progress>, id: VmId) {
    exists k :: k in m && m[k].Holds(id)
  }

  /** The states `Advance` may enter from `from`. */
  predicate Follows(from: JobState, to: JobState) {
    match from
    case WaitReady => to == Bootstrapping
    case Bootstrapping => to == RunnerUp
    case RunnerUp => to == JobRunning || to == JobDone
    case JobRunning => to == JobDone
    case _ => false
  }

  predicate Enabled(lim: Limits, s: Sys, a: Action) {
    match a
    case SubmitNew(k, _) => k !in s.workers && k !in s.store.mem
    case Spawn(k) => k !in s.workers && k in s.store.mem && !s.store.mem[k].state.Terminal()
    case Acquire(k) => At(s, k, WaitSlot) && |Slots(s)| < lim.maxVms
    case Enter(k, _) => At(s, k, Dispatch) && s.workers[k].rec.state.Rank() <= 1
    case Post(k) => At(s, k, Send) && !s.cancelled && s.workers[k].rec.idem.Some?
    case PostFails(k) => At(s, k, Send)
    case Reply(k) => At(s, k, Await) && s.workers[k].rec.idem.Some? && s.workers[k].rec.idem.value in s.answers
    case RateLimited(k) => At(s, k, Await)
    case ReplyLost(k) => At(s, k, Await)
    case FreshKey(k, _) => At(s, k, Refused)
    case Resend(k) => At(s, k, Backoff)
    case GiveUp(k) => At(s, k, Backoff)
    case Vanish(k, _) => At(s, k, Backoff)
    case RecordVm(k, _) => k in s.workers && s.workers[k].pc.GotVm?
    case Begin(k) => At(s, k, Dispatch) && s.workers[k].rec.state.HasMachine()
    case Advance(k, to, _) => At(s, k, Work) && Follows(s.workers[k].rec.state, to)
    case Save(k, _) => At(s, k, Work) && s.workers[k].rec.state == Bootstrapping
    case Fail(k) => At(s, k, Work) && s.workers[k].rec.state.Rank() <= 5 && !s.cancelled
    case Stop(k) => At(s, k, Work) && s.workers[k].rec.state.Rank() <= 5 && s.cancelled
    case Release(k, _) =>
      At(s, k, Work) && (s.workers[k].rec.state == JobDone || s.workers[k].rec.state == Deleting)
    case TryDelete(k, acted, ok) =>
      k in s.workers && s.workers[k].pc.Cleanup? && s.workers[k].rec.vm.Some?
      && (ok ==> acted)
    case Finish(k, _) => At(s, k, Freed)
    case Settle(k, _) =>
      k in s.workers && s.workers[k].pc.Erred?
      && (!s.workers[k].pc.retryable || lim.maxRetries <= s.workers[k].rec.retry)
    case Moot(k, _) =>
      k in s.workers && s.workers[k].pc == Erred(true) && s.workers[k].rec.retry < lim.maxRetries
    case Retry(k, _) =>
      k in s.workers && s.workers[k].pc == Erred(true) && s.workers[k].rec.retry < lim.maxRetries
    case Again(k) => At(s, k, Pace)
    case Abort(k) =>
      k in s.workers && s.cancelled
      && (s.workers[k].pc.Erred? || s.workers[k].pc.Pace?)
    case Exit(k) => At(s, k, Exiting) || (At(s, k, WaitSlot) && s.cancelled)
    case TakeListing => true
    case Close(k, _) =>
      && k !in s.workers && k in s.store.mem
      && (s.store.mem[k].state == JobDone || s.store.mem[k].state == Deleting)
      && s.listing.Some?
    case Prune(k, _) => k in s.store.mem && s.store.mem[k].state.Terminal()
    case CollectOrphan(id) => !HasVm(s.store.mem, id)
    case Serve(i, answer) =>
      i in s.sent && i !in s.answers && (answer.Created? ==> answer.vm !in s.made)
    case VmDies(_) => true
    case Shutdown => true
    case Crash => true
  }

  /** The record a Submit of an unknown job starts with. */
  function Fresh(s: Sys): Progress {
    Progress(s.nextLife, 0, Queued, None, None)
  }

  /** NewIdemKey for the record `r` of job `k`: the nonce has never been used. */
  function Mint(s: Sys, k: Key, r: Progress): IdemKey {
    IdemKey(k, r.life, r.retry, s.nextNonce)
  }

  /** Upsert by the worker of `k`, which then stands at `pc`. */
  function Put(s: Sys, k: Key, r: Progress, pc: Pc, ok: bool): Sys {
    s.(store := s.store.Upsert(k, r, ok),
       workers := s.workers[k := Worker(r, pc)],
       durable := if ok then s.tracked else s.durable)
  }

  function Goto(s: Sys, k: Key, pc: Pc): Sys
    requires k in s.workers
  {
    s.(workers := s.workers[k := s.workers[k].(pc := pc)])
  }

  /** The record after one retry: fresh VM, fresh key. */
  function Retried(r: Progress): Progress {
    r.(retry := r.retry + 1, state := Queued, vm := None, idem := None)
  }

  function EnterCreating(s: Sys, k: Key, r: Progress): Progress {
    r.(state := Creating, idem := if r.idem.None? || r.state == Queued then Some(Mint(s, k, r)) else r.idem)
  }

  function Apply(lim: Limits, s: Sys, a: Action): Sys
    requires Enabled(lim, s, a)
  {
    match a
    case SubmitNew(k, ok) =>
      var st := s.store.Upsert(k, Fresh(s), ok);
      s.(store := st,
         workers := if ok then s.workers[k := Worker(Fresh(s), WaitSlot)] else s.workers,
         durable := if ok then s.tracked else s.durable,
         nextLife := s.nextLife + 1)
    case Spawn(k) => s.(workers := s.workers[k := Worker(s.store.mem[k], WaitSlot)])
    case Acquire(k) => Goto(s, k, Dispatch)
    case Enter(k, ok) =>
      Put(s.(nextNonce := s.nextNonce + 1), k, EnterCreating(s, k, s.workers[k].rec), if ok then Send else Erred(true), ok)
    case Post(k) => Goto(s.(sent := s.sent + {s.workers[k].rec.idem.value}), k, Await)
    case PostFails(k) => Goto(s, k, Erred(true))
    case Reply(k) =>
      (match s.answers[s.workers[k].rec.idem.value]
       case Created(v) => Goto(s, k, GotVm(v))
       case Rejected => Goto(s, k, Refused))
    case RateLimited(k) => Goto(s, k, Backoff)
    case ReplyLost(k) => Goto(s, k, Erred(true))
    case FreshKey(k, ok) =>
      var r := s.workers[k].rec;
      Put(s.(nextNonce := s.nextNonce + 1), k, r.(idem := Some(Mint(s, k, r))), if ok then Backoff else Erred(true), ok)
    case Resend(k) => Goto(s, k, Send)
    case GiveUp(k) => Goto(s, k, Erred(false))
    case Vanish(k, ok) => Put(s, k, s.workers[k].rec.(state := Complete), Exiting, ok)
    case RecordVm(k, ok) =>
      var v := s.workers[k].pc.vm;
      Put(s.(tracked := s.tracked + {v}), k, s.workers[k].rec.(vm := Some(v), state := WaitReady), Work, ok)
    case Begin(k) => Goto(s, k, Work)
    case Advance(k, to, ok) => Put(s, k, s.workers[k].rec.(state := to), Work, ok)
    case Save(k, ok) => Put(s, k, s.workers[k].rec, Work, ok)
    case Fail(k) => Goto(s, k, Cleanup(0, false))
    case Stop(k) => Goto(s, k, Exiting)
    case Release(k, ok) => Put(s, k, s.workers[k].rec.(state := Deleting), Cleanup(0, true), ok)
    case TryDelete(k, acted, ok) =>
      var v, tries, final := s.workers[k].rec.vm.value, s.workers[k].pc.tries, s.workers[k].pc.final;
      var over := if final then Freed else Erred(true);
      var t := if acted then s.(live := s.live - {v}) else s;
      if ok then Goto(t, k, over)
      else if tries < 2 then Goto(t, k, Cleanup(tries + 1, final))
      else Goto(t.(gaveUp := s.gaveUp + {v}), k, over)
    case Finish(k, ok) => Put(s, k, s.workers[k].rec.(state := Complete), Exiting, ok)
    case Settle(k, ok) => Put(s, k, s.workers[k].rec.(state := Failed), Exiting, ok)
    case Moot(k, ok) => Put(s, k, s.workers[k].rec.(state := Complete), Exiting, ok)
    case Retry(k, ok) => Put(s, k, Retried(s.workers[k].rec), Pace, ok)
    case Again(k) => Goto(s, k, Dispatch)
    case Abort(k) => Goto(s, k, Exiting)
    case Exit(k) => s.(workers := s.workers - {k})
    case TakeListing => s.(listing := Some(s.live))
    case Close(k, ok) =>
      var r := s.store.mem[k];
      s.(store := s.store.Upsert(k, r.(state := Complete), ok),
         live := if r.vm.Some? && r.vm.value in s.listing.value then s.live - {r.vm.value} else s.live,
         durable := if ok then s.tracked else s.durable)
    case Prune(k, ok) => s.(store := s.store.Remove(k, ok), durable := if ok then s.tracked else s.durable)
    case CollectOrphan(id) => s.(live := s.live - {id})
    case Serve(i, answer) =>
      (match answer
       case Created(v) => s.(answers := s.answers[i := answer], made := s.made[v := i], live := s.live + {v})
       case Rejected => s.(answers := s.answers[i := answer]))
    case VmDies(id) => s.(live := s.live - {id})
    case Shutdown => s.(cancelled := true)
    case Crash =>
      s.(store := s.store.Reopen(), workers := map[], cancelled := false, listing := None,
         tracked := s.durable, older := s.made.Keys, restarts := s.restarts + 1)
  }

  /** Every action of `run` is enabled when its turn comes. */
  predicate Valid(lim: Limits, s: Sys, run: seq<Action>)
    decreases |run|
  {
    run != [] ==> Enabled(lim, s, run[0]) && Valid(lim, Apply(lim, s, run[0]), run[1..])
  }

  /** Where `run` leads from `s`. */
  function After(lim: Limits, s: Sys, run: seq<Action>): Sys
    requires Valid(lim, s, run)
    decreases |run|
  {
    if run == [] then s else After(lim, Apply(lim, s, run[0]), run[1..])
  }
}
