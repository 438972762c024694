/** The worker that drives one job through its FSM, as the loops of runJob run it. Every
    atomic step it takes is an action of the protocol, whatever the rest of the system does
    in between, so the protocol's guarantees are guarantees of this code. */
module Job {
  import opened Records
  import opened Protocol
  import opened Invariant
  import opened InvariantSteps
  import opened Runs
  import opened Environment
  import opened Runners
  import opened Bootstrap
  import opened Text
  import Safety

  /** Durations are in nanoseconds. */
  datatype Config = Config(
    limits: Limits,
    initial: int,           // limits.capacity_backoff.initial
    max: int,               // limits.capacity_backoff.max
    maxJob: int,            // runner.max_job_duration
    statusPoll: int,        // runner.status_poll_interval
    pickup: int,            // runner.pickup_timeout
    poll: int,              // minicontrol.poll_interval
    provision: int,         // minicontrol.provision_timeout
    namePrefix: string)
  {
    predicate Positive() {
      0 < initial && 0 < max && 0 <= maxJob && 0 < statusPoll && 0 <= pickup && 0 < poll && 0 <= provision
    }
  }

  const SECOND: int := 1_000_000_000

  function Min(a: int, b: int): int {
    if a <= b then a else b
  }

  /** What createVM reports. */
  datatype Asked = GotMachine(vm: VmId) | NotNeeded | AskFailed(retryable: bool)

  /** One reply to a create request. */
  datatype Reply = Granted(vm: VmId) | NoCapacity | Throttled(delay: int) | Broken

  /** One round of the create loop: a VM, no capacity, a rate limit with its wait, or the end. */
  datatype Try = Won(vm: VmId) | NoRoom | Slow(wait: int) | Failing

  /** RetryDelay: the server's hint, or five seconds. */
  function RetryDelay(retryAfter: int): int {
    if retryAfter > 0 then retryAfter else 5 * SECOND
  }

  /** GitHub lists registration `id`, not verifiably online and idle. */
  predicate OwnReapable(runners: seq<Runner>, id: int) {
    exists i :: 0 <= i < |runners| && runners[i].id == id && runners[i].Reapable()
  }

  /** The request failed in transport, or its reply did. */
  predicate NoReply(net: Net, s: Sys, idem: Option<IdemKey>) {
    net.Unsent? || net.Lost? || (net.Answered? && idem.Some? && idem.value !in s.answers)
  }

  /** Every page of the runner listing arrives, and it is short enough to be complete. */
  predicate AllPages(f: Fate) {
    |f.runners| < PAGE_SIZE * PAGE_CAP && forall p: nat :: 1 <= p <= LastPage(f.runners) ==> p !in f.pagesLost
  }

  /** The DELETE was performed and answered. */
  predicate Deleted(f: Fate) {
    f.deleteActs && f.deleteReplies
  }

  /** The VM cannot become usable any more. */
  predicate Doomed(r: VmReply) {
    r.NoVm? || (r.Vm? && (r.status == "error" || r.status == "deleting"))
  }

  /** The in-VM marker ends monitoring. */
  predicate Decisive(r: ExecReply) {
    r.NoHost? || (r.Executed? && (StatusOf(r.stdout).Failed() || StatusOf(r.stdout).Done()))
  }

  /** GitHub says our runner runs this record's job; its ID counts before its name. */
  predicate Ours(r: JobReply, id: int, name: string) {
    r.Job? && r.status == "in_progress"
    && ((r.runnerId != 0 && r.runnerId == id) || (r.runnerId == 0 && r.runnerName == name))
  }

  /** An event that says so. */
  predicate Claims(e: Event, name: string) {
    e.InProgress? && (e.runnerName == "" || e.runnerName == name)
  }

  /** At turn `at` GitHub's complete listing shows runner `id` idle or gone. */
  ghost predicate ShownIdle(fate: Oracle, id: int, at: nat) {
    AllPages(fate.At(at)) && !FirstBusy(fate.At(at).runners, id)
  }

  /** The marker read at turn `at` says the runner exited; GitHub was asked at turn `asked`. */
  ghost predicate ExitGives(fate: Oracle, at: nat, asked: nat, outcome: Outcome) {
    && fate.At(at).exec.Executed? && StatusOf(fate.At(at).exec.stdout).Done()
    && outcome == MarkerOutcome(fate.At(asked).job, StatusOf(fate.At(at).exec.stdout).exit)
  }

  ghost predicate FailedAt(fate: Oracle, at: nat) {
    fate.At(at).exec.Executed? && StatusOf(fate.At(at).exec.stdout).Failed()
  }

  /** A stretch of an attempt: its times, its turns, and the turn of the last marker read. */
  datatype Span = Span(from: int, to: int, lo: nat, hi: nat, mark: int)
  {
    predicate Saw(turn: nat) {
      lo <= turn < hi
    }

    /** Lies within `w`, with no marker read in between. */
    predicate Within(w: Span) {
      w.from <= from && to <= w.to && w.lo <= lo && hi <= w.hi && mark == w.mark
    }
  }

  /** At turn `told` an event or GitHub said that the job is over. */
  ghost predicate Told(fate: Oracle, told: nat) {
    JobCompleted in fate.At(told).events || Finished(fate.At(told).job)
  }

  /** The job was known to be over before a listing taken after the last marker read showed the
      runner idle. */
  ghost predicate IdleAfter(fate: Oracle, id: int, told: nat, at: nat, w: Span) {
    w.mark < at && told < at && w.Saw(told) && w.Saw(at) && Told(fate, told) && ShownIdle(fate, id, at)
  }

  /** Such a listing, and GitHub asked about the job right behind it. */
  ghost predicate IdleThenAsked(fate: Oracle, id: int, at: nat, asked: nat, w: Span) {
    w.mark < at && w.Saw(at) && asked == at + 1 && w.Saw(asked) && ShownIdle(fate, id, at)
  }

  /** The last marker read is this one. */
  ghost predicate Read(at: nat, w: Span) {
    w.mark == at && w.Saw(at)
  }

  /** Why monitoring may end in `w`, and with what outcome. */
  ghost predicate Justified(cfg: Config, fate: Oracle, id: int, st: JobState, cancelled: bool,
                            outcome: Outcome, why: Reason, w: Span) {
    match why
    case MarkerExit(at, asked) => Read(at, w) && asked == at + 1 && w.Saw(asked) && ExitGives(fate, at, asked, outcome)
    case MarkerFailed(at) => outcome == MonitorFailed && Read(at, w) && FailedAt(fate, at)
    case VmGone(at) => outcome == MonitorFailed && Read(at, w) && fate.At(at).exec.NoHost?
    case JobOver(told, at) => outcome == NotOurs && IdleAfter(fate, id, told, at, w)
    case NoPickup(at, asked) =>
      && st == RunnerUp && IdleThenAsked(fate, id, at, asked, w) && w.to > w.from + cfg.pickup
      && outcome == if Finished(fate.At(asked).job) then NotOurs else MonitorFailed
    case OverBudget => outcome == MonitorFailed && w.to > w.from + cfg.maxJob
    case Stopping => outcome == MonitorFailed && cancelled
    case _ => false
  }

  /** The reply at turn `at` stopped the launch at `step`. */
  ghost predicate Stuck(fate: Oracle, step: Launch, at: nat) {
    match step
    case Download => !fate.At(at).urlKnown
    case Registration => fate.At(at).jit.None?
    case Staging => !Says(fate.At(at).exec, "staged")
    case Launching => !Says(fate.At(at).exec, "launched")
  }

  /** A genuine failure of a record with a VM in `w`. */
  ghost predicate Cause(cfg: Config, fate: Oracle, id: int, why: Reason, w: Span) {
    match why
    case Unready(when) => w.Saw(when) && (Doomed(fate.At(when).vm) || w.to > w.from + cfg.provision)
    case Unlaunched(step, at) => w.Saw(at) && Stuck(fate, step, at)
    case MarkerExit(at, asked) => Read(at, w) && asked == at + 1 && w.Saw(asked) && ExitGives(fate, at, asked, MonitorFailed)
    case MarkerFailed(at) => Read(at, w) && FailedAt(fate, at)
    case VmGone(at) => Read(at, w) && fate.At(at).exec.NoHost?
    case NoPickup(at, asked) =>
      IdleThenAsked(fate, id, at, asked, w) && !Finished(fate.At(asked).job) && w.to > w.from + cfg.pickup
    case OverBudget => w.to > w.from + cfg.maxJob
    case _ => false
  }

  /** A genuine failure to get a VM in `w`. */
  ghost predicate NoVmCause(cfg: Config, fate: Oracle, s: Sys, idem: Option<IdemKey>, why: Reason, w: Span) {
    match why
    case Uncreated(last, _, true) => w.Saw(last) && (!fate.At(last).stored || NoReply(fate.At(last).net, s, idem))
    case Uncreated(_, wait, false) => w.to + wait > w.from + cfg.maxJob
    case _ => false
  }

  /** No VM is needed any more: the job was completed before there was one, or the VM's runner
      exited after the job, or it is idle and the job is finished. */
  ghost predicate Over(fate: Oracle, id: int, why: Reason, w: Span) {
    match why
    case Unneeded(asked) => w.Saw(asked) && Finished(fate.At(asked).job)
    case MarkerExit(at, asked) =>
      && Read(at, w) && asked == at + 1 && w.Saw(asked)
      && (ExitGives(fate, at, asked, OurJobDone) || ExitGives(fate, at, asked, NotOurs))
    case JobOver(told, at) => IdleAfter(fate, id, told, at, w)
    case NoPickup(at, asked) => IdleThenAsked(fate, id, at, asked, w) && Finished(fate.At(asked).job)
    case _ => false
  }

  /** Turns in strictly increasing order between `lo` and `hi`. */
  ghost predicate Rising(turns: seq<nat>, lo: nat, hi: nat) {
    && (forall n :: 0 <= n < |turns| ==> lo <= turns[n] < hi)
    && (forall m, n :: 0 <= m < n < |turns| ==> turns[m] < turns[n])
  }

  lemma RisingNone(lo: nat, hi: nat)
    ensures Rising([], lo, hi)
  {
  }

  lemma RisingOn(turns: seq<nat>, lo: nat, hi: nat, next: int, end: nat)
    requires Rising(turns, lo, hi) && lo <= hi <= end
    ensures Rising(turns, lo, end)
    ensures hi <= next < end ==> Rising(turns + [next], lo, end)
  {
  }

  lemma Verdict(cfg: Config, fate: Oracle, id: int, st: JobState, cancelled: bool, outcome: Outcome, why: Reason, w: Span)
    requires Justified(cfg, fate, id, st, cancelled, outcome, why, w)
    ensures outcome != MonitorFailed ==> Over(fate, id, why, w)
    ensures outcome == MonitorFailed ==> cancelled || Cause(cfg, fate, id, why, w)
  {
    hide IdleAfter, IdleThenAsked, ExitGives, FailedAt, Read;
  }

  lemma CauseStays(cfg: Config, fate: Oracle, id: int, why: Reason, v: Span, w: Span)
    requires Cause(cfg, fate, id, why, v) && v.Within(w)
    ensures Cause(cfg, fate, id, why, w)
  {
    hide ShownIdle, ExitGives, FailedAt, Stuck, Doomed;
  }

  lemma OverStays(fate: Oracle, id: int, why: Reason, v: Span, w: Span)
    requires Over(fate, id, why, v) && v.Within(w)
    ensures Over(fate, id, why, w)
  {
    hide ShownIdle, ExitGives, Told;
  }

  // ---------------------------------------------------------------- what a worker did

  /** How many requests, committed fresh keys and deletes of one worker a run contains. */
  datatype Counts = Counts(asks: nat, keys: nat, deletes: nat)

  function Bump(c: Counts, a: Action, k: Key): Counts {
    match a
    case Post(h) => if h == k then c.(asks := c.asks + 1) else c
    case PostFails(h) => if h == k then c.(asks := c.asks + 1) else c
    case FreshKey(h, ok) => if h == k && ok then c.(keys := c.keys + 1) else c
    case TryDelete(h, _, _) => if h == k then c.(deletes := c.deletes + 1) else c
    case _ => c
  }

  function Tally(run: seq<Action>, k: Key): Counts {
    if run == [] then Counts(0, 0, 0) else Bump(Tally(run[..|run| - 1], k), run[|run| - 1], k)
  }

  lemma TallyAppend(run: seq<Action>, a: Action, k: Key)
    ensures Tally(run + [a], k) == Bump(Tally(run, k), a, k)
  {
    assert (run + [a])[..|run|] == run;
  }

  lemma {:induction false} TallyForeign(run: seq<Action>, more: seq<Action>, k: Key)
    requires forall a :: a in more ==> Foreign(a, k)
    ensures Tally(run + more, k) == Tally(run, k)
  {
    if more == [] {
      assert run + more == run;
    } else {
      var front, a := more[..|more| - 1], more[|more| - 1];
      assert a in more && Foreign(a, k);
      TallyForeign(run, front, k);
      TallyAppend(run + front, a, k);
      assert run + front + [a] == run + more;
    }
  }

  /** One sleep: how long, behind how many committed fresh keys, and before which turn. */
  datatype Nap = Nap(d: int, keys: nat, turn: nat)

  function Total(naps: seq<Nap>): int {
    if naps == [] then 0 else Total(naps[..|naps| - 1]) + naps[|naps| - 1].d
  }

  lemma TotalOn(naps: seq<Nap>, n: Nap)
    ensures Total(naps + [n]) == Total(naps) + n.d
  {
    assert (naps + [n])[..|naps|] == naps;
  }

  /** The fresh keys after these sleeps of a createVM call that began with `keys`. */
  function KeysAfter(naps: seq<Nap>, keys: nat): nat {
    if naps == [] then keys else naps[|naps| - 1].keys
  }

  /** The wait that the next refusal of this call leads to. */
  function NextWait(cfg: Config, naps: seq<Nap>, keys: nat): int {
    var n := KeysAfter(naps, keys) - keys;
    CapacityWait(cfg, if n >= 0 then n else 0)
  }

  /** A wait of a round that began behind `keys` fresh keys: the next backoff after a committed
      refusal, the server's delay and one second after a 429. */
  ghost predicate Rested(fate: Oracle, n: Nap, keys: nat, backoff: int) {
    || (n.keys == keys + 1 && n.d == backoff)
    || (n.keys == keys && n.turn > 0 && fate.At(n.turn - 1).net.TooMany?
        && n.d == RetryDelay(fate.At(n.turn - 1).net.retryAfter) + SECOND)
  }

  /** GitHub was asked after the sleep and did not call the job completed. */
  ghost predicate StillWanted(fate: Oracle, n: Nap) {
    !Finished(fate.At(n.turn + 1).job)
  }

  /** The sleeps of one createVM call that began behind `keys` fresh keys: the n-th refusal is
      followed by the n-th capacity wait, whatever 429s lie between. */
  ghost predicate Backed(cfg: Config, fate: Oracle, keys: nat, naps: seq<Nap>)
    decreases |naps|
  {
    naps != [] ==>
      var front, n := naps[..|naps| - 1], naps[|naps| - 1];
      && Backed(cfg, fate, keys, front)
      && Rested(fate, n, KeysAfter(front, keys), NextWait(cfg, front, keys))
  }

  ghost predicate AllWanted(fate: Oracle, naps: seq<Nap>) {
    forall j :: 0 <= j < |naps| ==> StillWanted(fate, naps[j])
  }

  lemma {:induction false} BackedRises(cfg: Config, fate: Oracle, keys: nat, naps: seq<Nap>)
    requires cfg.Positive() && Backed(cfg, fate, keys, naps)
    ensures KeysAfter(naps, keys) >= keys
    ensures Total(naps) >= |naps| * LeastWait(cfg)
  {
    hide Oracle.At, CapacityWait, LeastWait;
    if naps != [] {
      var front, n := naps[..|naps| - 1], naps[|naps| - 1];
      BackedRises(cfg, fate, keys, front);
      WaitsAreLong(cfg, KeysAfter(front, keys) - keys);
      OneMoreAsk(|front|, LeastWait(cfg));
    }
  }

  lemma BackedOn(cfg: Config, fate: Oracle, keys: nat, naps: seq<Nap>, n: Nap)
    requires Backed(cfg, fate, keys, naps) && Rested(fate, n, KeysAfter(naps, keys), NextWait(cfg, naps, keys))
    ensures Backed(cfg, fate, keys, naps + [n]) && KeysAfter(naps + [n], keys) == n.keys
  {
    hide Rested, NextWait;
    assert (naps + [n])[..|naps|] == naps;
  }

  /** After a committed refusal the backoff doubles up to the maximum, after a 429 it stays. */
  lemma NextDoubles(cfg: Config, naps: seq<Nap>, keys: nat, n: Nap)
    requires cfg.Positive() && KeysAfter(naps, keys) >= keys
    ensures n.keys == KeysAfter(naps, keys) + 1 ==> NextWait(cfg, naps + [n], keys) == Min(NextWait(cfg, naps, keys) * 2, cfg.max)
    ensures n.keys == KeysAfter(naps, keys) ==> NextWait(cfg, naps + [n], keys) == NextWait(cfg, naps, keys)
  {
    BackoffDoubles(cfg, KeysAfter(naps, keys) - keys);
    hide CapacityWait;
  }

  /** The next sleep `n` of that call, begun at `t`, would end behind the deadline. */
  ghost predicate GaveUp(cfg: Config, fate: Oracle, naps: seq<Nap>, keys: nat, n: Nap, t: int, deadline: int) {
    t + n.d > deadline && Rested(fate, n, KeysAfter(naps, keys), NextWait(cfg, naps, keys))
  }

  lemma WantedFront(fate: Oracle, naps: seq<Nap>)
    ensures AllWanted(fate, naps) && naps != [] ==> AllWanted(fate, naps[..|naps| - 1])
  {
    hide StillWanted;
  }

  lemma MoreRest(cfg: Config, fate: Oracle, keys: nat, naps: seq<Nap>, n: Nap)
    requires Backed(cfg, fate, keys, naps) && AllWanted(fate, naps)
    requires Rested(fate, n, KeysAfter(naps, keys), NextWait(cfg, naps, keys))
    ensures Backed(cfg, fate, keys, naps + [n]) && KeysAfter(naps + [n], keys) == n.keys
    ensures Total(naps + [n]) == Total(naps) + n.d
    ensures (naps + [n])[..|naps|] == naps
    ensures AllWanted(fate, naps + [n]) <==> StillWanted(fate, n)
  {
    BackedOn(cfg, fate, keys, naps, n);
    TotalOn(naps, n);
    hide Backed, Total, NextWait, StillWanted;
  }

  class JobWorker {
    const cfg: Config
    const k: Key
    const fate: Oracle
    ghost var trace: seq<Action>
    var g: Sys
    var rec: Progress
    var runnerName: string
    var runnerId: int
    var now: int
    var turn: nat
    ghost var naps: seq<Nap>               // every sleep
    ghost var marks: seq<nat>              // the turns at which monitor read the marker
    ghost var dropped: seq<int>            // the registrations this worker asked GitHub to remove

    /** The worker and all others have performed a run of the protocol. */
    ghost predicate Linked()
      reads this
    {
      && cfg.Positive()
      && Valid(cfg.limits, Initial(), trace) && g == After(cfg.limits, Initial(), trace)
      && Inv(cfg.limits, g)
      && k in g.workers
    }

    /** ... and the worker stands at `pc` with its local record stored in the machine. */
    ghost predicate Ready(pc: Pc)
      reads this
    {
      Linked() && g.workers[k] == Worker(rec, pc)
    }

    lemma WellSet(pc: Pc)
      requires Ready(pc)
      ensures cfg.Positive() && MachineBound(cfg) >= 0
    {
      hide Inv, Valid, After;
    }

    /** What this worker has done so far. */
    ghost function Done(): Counts
      reads `trace
    {
      Tally(trace, k)
    }

    /** The create requests since `d`. */
    ghost function Requests(d: Counts): int
      reads `trace
    {
      Done().asks - d.asks
    }

    /** The turn of the last marker read. */
    ghost function Mark(): int
      reads `marks
    {
      if marks == [] then -1 else marks[|marks| - 1]
    }

    /** The stretch from a given time and turn until now. */
    ghost function Since(from: int, lo: nat): Span
      reads `now, `turn, `marks
    {
      Span(from, now, lo, turn, Mark())
    }

    /** A worker enters when it has taken its slot, after any run of the system. */
    constructor (cfg: Config, k: Key, fate: Oracle, g: Sys, ghost past: seq<Action>, runnerName: string, runnerId: int, now: int)
      requires cfg.Positive() && Valid(cfg.limits, Initial(), past) && g == After(cfg.limits, Initial(), past)
      requires At(g, k, Dispatch)
      ensures Ready(Dispatch) && trace == past && this.cfg == cfg && this.k == k && this.fate == fate
      ensures this.now == now && rec == g.workers[k].rec
    {
      InitialInv(cfg.limits);
      RunKeepsInv(cfg.limits, Initial(), past);
      this.cfg, this.k, this.fate := cfg, k, fate;
      this.g, this.rec, this.trace := g, g.workers[k].rec, past;
      this.runnerName, this.runnerId := runnerName, runnerId;
      this.now, this.turn := now, 0;
      this.naps, this.marks, this.dropped := [], [], [];
    }

    // ---------------------------------------------------------------- single steps

    /** Others act; then the worker looks at its replies. */
    method Turn() returns (f: Fate)
      requires Linked()
      modifies `g, `trace, `turn
      ensures Linked() && g.workers[k] == old(g.workers[k]) && old(trace) <= trace
      ensures f == fate.At(old(turn)) && turn == old(turn) + 1
      ensures Done() == old(Done())
      ensures old(g.cancelled) ==> g.cancelled
    {
      hide Oracle.At, Inv, Valid, After, Tally;
      f := fate.At(turn);
      var run := Played(cfg.limits, g, k, f.others);
      PlayedRun(cfg.limits, g, k, f.others);
      TallyForeign(trace, run, k);
      RunKeepsInv(cfg.limits, g, run);
      Concat(cfg.limits, Initial(), trace, run);
      trace := trace + run;
      g := After(cfg.limits, g, run);
      turn := turn + 1;
    }

    /** The worker performs `a`, which leaves it at `pc` with its local record stored. */
    method Do(a: Action, ghost pc: Pc)
      requires Linked() && Can(cfg.limits, g, k, a, rec, pc)
      modifies `g, `trace
      ensures Ready(pc) && g == Apply(cfg.limits, old(g), a) && old(trace) < trace
      ensures g.cancelled == old(g.cancelled) && g.answers == old(g.answers)
      ensures Done() == Bump(old(Done()), a, k)
    {
      hide Oracle.At, Inv, Valid, After, Enabled, Apply, Tally, Bump;
      TallyAppend(trace, a, k);
      StepKeepsInv(cfg.limits, g, a);
      Append(cfg.limits, Initial(), trace, a);
      trace := trace + [a];
      g := Apply(cfg.limits, g, a);
    }

    method Sleep(d: int) returns (f: Fate)
      requires Linked()
      modifies `g, `trace, `turn, `now, `naps
      ensures Linked() && g.workers[k] == old(g.workers[k]) && old(trace) <= trace
      ensures now == old(now) + d && f == fate.At(old(turn)) && turn == old(turn) + 1
      ensures Done() == old(Done()) && naps == old(naps) + [Nap(d, Done().keys, old(turn))]
      ensures old(g.cancelled) ==> g.cancelled
    {
      naps := naps + [Nap(d, Done().keys, turn)];
      now := now + d;
      f := Turn();
    }

    // ---------------------------------------------------------------- creating

    /** The request leaves unless the process is stopping or the transport fails. */
    method Request() returns (out: bool)
      requires Ready(Send)
      modifies `g, `trace, `turn
      ensures old(trace) <= trace && (old(g.cancelled) ==> g.cancelled && !out)
      ensures Ready(if out then Await else Erred(true))
      ensures rec.idem.Some? && turn == old(turn) + 1
      ensures Done() == old(Done()).(asks := old(Done()).asks + 1)
      ensures !out ==> g.cancelled || fate.At(old(turn)).net.Unsent?
    {
      hide Oracle.At, Inv, Valid, After, Can;
      var f := Turn();
      SendMoves(cfg.limits, g, k);
      if g.cancelled || f.net.Unsent? {
        Do(PostFails(k), Erred(true));
        out := false;
      } else {
        Do(Post(k), Await);
        out := true;
      }
    }

    /** One create request and what comes back. */
    method Ask() returns (r: Reply)
      requires Ready(Send)
      modifies `g, `trace, `turn
      ensures old(trace) <= trace && old(turn) <= turn && (old(g.cancelled) ==> g.cancelled)
      ensures turn > old(turn) && rec.idem.Some?
      ensures Done() == old(Done()).(asks := old(Done()).asks + 1)
      ensures match r
              case Granted(v) => Ready(GotVm(v))
              case NoCapacity => Ready(Refused)
              case Throttled(d) => Ready(Backoff) && fate.At(turn - 1).net.TooMany? && d == RetryDelay(fate.At(turn - 1).net.retryAfter)
              case Broken => Ready(Erred(true)) && (g.cancelled || NoReply(fate.At(turn - 1).net, g, rec.idem))
    {
      hide Oracle.At, Inv, Valid, After, Can, Enabled, Apply;
      var out := Request();
      if !out {
        return Broken;
      }
      var f := Turn();
      AwaitMoves(cfg.limits, g, k);
      if f.net.Answered? && rec.idem.value in g.answers {
        match g.answers[rec.idem.value] {
          case Created(v) =>
            Do(Protocol.Reply(k), GotVm(v));
            return Granted(v);
          case Rejected =>
            Do(Protocol.Reply(k), Refused);
            return NoCapacity;
        }
      } else if f.net.TooMany? {
        Do(RateLimited(k), Backoff);
        return Throttled(RetryDelay(f.net.retryAfter));
      } else {
        Do(ReplyLost(k), Erred(true));
        return Broken;
      }
    }

    /** After a capacity rejection the old key is spent: a fresh one is persisted first. */
    method Rekey() returns (ok: bool)
      requires Ready(Refused)
      modifies `g, `trace, `turn, `rec
      ensures Ready(if ok then Backoff else Erred(true))
      ensures turn > old(turn) && ok == fate.At(turn - 1).stored
      ensures Done() == if ok then old(Done()).(keys := old(Done()).keys + 1) else old(Done())
      ensures old(trace) <= trace && (old(g.cancelled) ==> g.cancelled)
      ensures rec == old(rec).(idem := rec.idem)
    {
      hide Oracle.At, Inv, Valid, After, Can, Enabled, Apply;
      var f := Turn();
      RefusedMoves(cfg.limits, g, k, f.stored);
      rec := rec.(idem := Some(Mint(g, k, rec)));
      ok := f.stored;
      Do(FreshKey(k, ok), if ok then Backoff else Erred(true));
    }

    /** Waiting between two requests, within the deadline. Behind every sleep GitHub is asked,
        and only a job it does not call completed is asked a VM for again. */
    method Pause(wait: int, deadline: int) returns (next: Pc)
      requires Ready(Backoff) && wait > 0
      modifies `g, `trace, `turn, `now, `naps
      ensures next == Send || next == Backoff || next == Erred(false)
      ensures Ready(next) && old(trace) <= trace && old(turn) <= turn && (old(g.cancelled) ==> g.cancelled)
      ensures Done() == old(Done())
      ensures if now == old(now) then naps == old(naps) && turn == old(turn) && next == Erred(false)
              else now == old(now) + wait <= deadline && naps == old(naps) + [Nap(wait, Done().keys, old(turn))]
      ensures next == Erred(false) ==> g.cancelled || old(now) + wait > deadline
      ensures next != Erred(false) ==> turn == old(turn) + 2 && (next == Backoff <==> Finished(fate.At(old(turn) + 1).job))
    {
      hide Oracle.At, Inv, Valid, After, Can, Enabled, Apply;
      BackoffMoves(cfg.limits, g, k);
      if now + wait > deadline || g.cancelled {
        Do(GiveUp(k), Erred(false));
        return Erred(false);
      }
      var f := Sleep(wait);
      BackoffMoves(cfg.limits, g, k);
      if g.cancelled && !f.timerWins {
        Do(GiveUp(k), Erred(false));
        return Erred(false);
      }
      f := Turn();
      BackoffMoves(cfg.limits, g, k);
      if Finished(f.job) {
        return Backoff;
      }
      Do(Resend(k), Send);
      return Send;
    }

    /** One request and, after a refusal, the fresh key; `backoff` is the next capacity wait. */
    method TryOnce(backoff: int) returns (t: Try)
      requires Ready(Send) && 0 < backoff
      modifies `g, `trace, `turn, `rec
      ensures turn > old(turn) && old(trace) <= trace && (old(g.cancelled) ==> g.cancelled)
      ensures rec == old(rec).(idem := rec.idem)
      ensures Done() == old(Done()).(asks := old(Done()).asks + 1, keys := if t.NoRoom? then old(Done()).keys + 1 else old(Done()).keys)
      ensures match t
              case Won(v) => Ready(GotVm(v)) && rec == old(rec)
              case NoRoom => Ready(Backoff) && fate.At(turn - 1).stored
              case Slow(d) =>
                && Ready(Backoff) && rec == old(rec) && fate.At(turn - 1).net.TooMany?
                && d == RetryDelay(fate.At(turn - 1).net.retryAfter) + SECOND
              case Failing => Ready(Erred(true)) && (g.cancelled || !fate.At(turn - 1).stored || NoReply(fate.At(turn - 1).net, g, rec.idem))
    {
      hide Oracle.At, Inv, Valid, After, Can, Enabled, Apply, NoReply;
      var reply := Ask();
      match reply {
        case Granted(v) =>
          return Won(v);
        case NoCapacity =>
          var ok := Rekey();
          return if ok then NoRoom else Failing;
        case Throttled(d) =>
          return Slow(d + SECOND);
        case Broken =>
          return Failing;
      }
    }

    /** Why creating ends: a VM; a job GitHub calls completed; a shutdown, a fresh key that
        could not be stored or a missing reply; or giving up. */
    ghost predicate CameTo(r: Asked)
      reads this
    {
      && turn > 0
      && match r
         case GotMachine(v) => Ready(GotVm(v))
         case NotNeeded => Ready(Backoff) && Finished(fate.At(turn - 1).job)
         case AskFailed(retryable) =>
           && Ready(Erred(retryable))
           && (retryable ==> g.cancelled || !fate.At(turn - 1).stored || NoReply(fate.At(turn - 1).net, g, rec.idem))
    }

    /** How a round begun at `t` behind `keys` fresh keys ends. */
    ghost predicate Ended(over: Option<Asked>, wait: int, rest: Option<Nap>, backoff: int, t: int, deadline: int, keys: nat)
      reads this
    {
      match over
      case None => rest.Some? && StillWanted(fate, rest.value)
      case Some(GotMachine(_)) => rest.None?
      case Some(NotNeeded) => rest.Some? && !StillWanted(fate, rest.value)
      case Some(AskFailed(true)) => rest.None?
      case Some(AskFailed(false)) =>
        g.cancelled || (rest.None? && t + wait > deadline && Rested(fate, Nap(wait, Done().keys, turn), keys, backoff))
    }

    /** One request and the sleep `rest` behind it, if any; `over` ends the loop. `full`: the
        server had no capacity and the fresh key is durable. */
    method AskAndWait(backoff: int, deadline: int) returns (over: Option<Asked>, full: bool, wait: int, ghost rest: Option<Nap>)
      requires Ready(Send) && 0 < backoff
      modifies `g, `trace, `turn, `rec, `now, `naps
      ensures old(trace) <= trace && old(turn) < turn && (old(g.cancelled) ==> g.cancelled)
      ensures rec == old(rec).(idem := rec.idem)
      ensures Done() == old(Done()).(asks := old(Done()).asks + 1, keys := if full then old(Done()).keys + 1 else old(Done()).keys)
      ensures if over.None? then Ready(Send) else CameTo(over.value)
      ensures rest.None? ==> now == old(now) && naps == old(naps)
      ensures rest.Some? ==>
                && now == old(now) + wait <= deadline && naps == old(naps) + [rest.value]
                && rest.value.d == wait > 0 && rest.value.keys == Done().keys
                && Rested(fate, rest.value, old(Done()).keys, backoff) && (if full then wait == backoff else wait > SECOND)
      ensures Ended(over, wait, rest, backoff, old(now), deadline, old(Done()).keys)
    {
      hide Oracle.At, Linked, Finished, NoReply, Tally;
      full, wait, rest := false, 0, None;
      var t := TryOnce(backoff);
      match t {
        case Won(v) =>
          return Some(GotMachine(v)), full, wait, rest;
        case NoRoom =>
          full, wait := true, backoff;
        case Slow(d) =>
          wait := d;
        case Failing =>
          return Some(AskFailed(true)), full, wait, rest;
      }
      ghost var was, n := now, Nap(wait, Done().keys, turn);
      var next := Pause(wait, deadline);
      if now != was {
        rest := Some(n);
      }
      match next {
        case Send => over := None;
        case Backoff => over := Some(NotNeeded);
        case _ => over := Some(AskFailed(false));
      }
    }

    /** The sleeps `mine` of a createVM call that began at `started` after `was` and `d`: they
        fill the time, follow the backoff and alternate with the requests. */
    ghost predicate Course(started: int, was: seq<Nap>, d: Counts, mine: seq<Nap>)
      reads this
    {
      && naps == was + mine && started <= now == started + Total(mine) <= started + cfg.maxJob
      && Backed(cfg, fate, d.keys, mine) && |mine| <= Requests(d) <= |mine| + 1
    }

    /** ... and the next request is due; GitHub still wants the job. */
    ghost predicate NextDue(started: int, was: seq<Nap>, d: Counts, mine: seq<Nap>, backoff: int)
      reads this
    {
      && naps == was + mine && started <= now == started + Total(mine) <= started + cfg.maxJob
      && Backed(cfg, fate, d.keys, mine) && AllWanted(fate, mine)
      && Done().keys == KeysAfter(mine, d.keys) && Requests(d) == |mine| && backoff == NextWait(cfg, mine, d.keys)
    }

    /** How a createVM call ends with respect to its sleeps. */
    ghost predicate Stops(r: Asked, wait: int, started: int, d: Counts, mine: seq<Nap>)
      reads this
    {
      match r
      case GotMachine(_) => AllWanted(fate, mine)
      case NotNeeded => mine != [] && AllWanted(fate, mine[..|mine| - 1]) && !StillWanted(fate, mine[|mine| - 1])
      case AskFailed(true) => AllWanted(fate, mine)
      case AskFailed(false) =>
        && (mine != [] ==> AllWanted(fate, mine[..|mine| - 1]))
        && (g.cancelled || GaveUp(cfg, fate, mine, d.keys, Nap(wait, Done().keys, turn), now, started + cfg.maxJob))
    }

    /** The bookkeeping of a round without a sleep, begun at `t`. */
    lemma BookedAwake(r: Asked, wait: int, backoff: int, started: int, was: seq<Nap>, d: Counts, mine: seq<Nap>, t: int, keys: nat)
      requires started <= t == started + Total(mine) <= started + cfg.maxJob && now == t && naps == was + mine
      requires Backed(cfg, fate, d.keys, mine) && AllWanted(fate, mine)
      requires keys == KeysAfter(mine, d.keys) && backoff == NextWait(cfg, mine, d.keys) && Requests(d) == |mine| + 1
      requires Ended(Some(r), wait, None, backoff, t, started + cfg.maxJob, keys)
      ensures Course(started, was, d, mine) && Stops(r, wait, started, d, mine)
    {
      hide Oracle.At, Tally, Total, Backed, AllWanted, Rested, StillWanted, NextWait, KeysAfter, Requests;
      WantedFront(fate, mine);
    }

    /** ... and of one that slept. */
    lemma BookedRested(over: Option<Asked>, wait: int, n: Nap, backoff: int, started: int, was: seq<Nap>, d: Counts, mine: seq<Nap>, t: int)
      requires started <= t == started + Total(mine) && now == t + n.d <= started + cfg.maxJob && n.d > 0
      requires naps == was + mine + [n] && Backed(cfg, fate, d.keys, mine) && AllWanted(fate, mine)
      requires backoff == NextWait(cfg, mine, d.keys) && Requests(d) == |mine| + 1 && n.keys == Done().keys
      requires Rested(fate, n, KeysAfter(mine, d.keys), backoff)
      requires Ended(over, wait, Some(n), backoff, t, started + cfg.maxJob, KeysAfter(mine, d.keys))
      ensures over.Some? ==> Course(started, was, d, mine + [n]) && Stops(over.value, wait, started, d, mine + [n])
      ensures over.None? ==> NextDue(started, was, d, mine + [n], NextWait(cfg, mine + [n], d.keys))
    {
      hide Oracle.At, Tally, Total, Backed, AllWanted, Rested, StillWanted, NextWait, KeysAfter, Requests;
      MoreRest(cfg, fate, d.keys, mine, n);
      assert was + mine + [n] == was + (mine + [n]);
    }

    /** One turn of the loop, with its bookkeeping. */
    method CreateRound(backoff: int, deadline: int, ghost started: int, ghost was: seq<Nap>, ghost d: Counts, ghost mine: seq<Nap>)
      returns (over: Option<Asked>, backoff': int, wait: int, ghost more: seq<Nap>)
      requires Ready(Send) && deadline == started + cfg.maxJob && NextDue(started, was, d, mine, backoff)
      modifies `g, `trace, `turn, `rec, `now, `naps
      ensures old(trace) <= trace && old(turn) <= turn && (old(g.cancelled) ==> g.cancelled)
      ensures rec == old(rec).(idem := rec.idem)
      ensures over.None? ==> Ready(Send) && NextDue(started, was, d, more, backoff') && old(now) < now <= deadline
      ensures over.Some? ==> old(turn) < turn && CameTo(over.value) && Course(started, was, d, more)
                             && Stops(over.value, wait, started, d, more)
    {
      ghost var t, keys := now, Done().keys;
      assert cfg.Positive();
      BackedRises(cfg, fate, d.keys, mine);
      WaitsAreLong(cfg, keys - d.keys);
      assert 0 < backoff;
      hide Oracle.At, Ready, Linked, CameTo, Tally, Total, Backed, AllWanted, Rested, StillWanted, CapacityWait, LeastWait, NextWait, KeysAfter, Min, Course, Stops, Ended;
      var full;
      ghost var rest;
      over, full, wait, rest := AskAndWait(backoff, deadline);
      backoff' := if full then Min(backoff * 2, cfg.max) else backoff;
      more := mine;
      if rest.None? {
        BookedAwake(over.value, wait, backoff, started, was, d, mine, t, keys);
      } else {
        more := mine + [rest.value];
        NextDoubles(cfg, mine, d.keys, rest.value);
        BookedRested(over, wait, rest.value, backoff, started, was, d, mine, t);
      }
    }

    /** Capacity backoff and rate limits. `mine` are the sleeps of this call: they follow the
        backoff, GitHub was asked behind each of them, and requests and sleeps alternate.
        `wait` is the last wait considered. */
    method CreateVm() returns (r: Asked, wait: int, ghost mine: seq<Nap>)
      requires Ready(Send)
      modifies `g, `trace, `turn, `rec, `now, `naps
      ensures CameTo(r) && old(turn) < turn
      ensures Course(old(now), old(naps), old(Done()), mine) && Stops(r, wait, old(now), old(Done()), mine)
      ensures (Requests(old(Done())) - 1) * LeastWait(cfg) <= cfg.maxJob
      ensures old(trace) <= trace && (old(g.cancelled) ==> g.cancelled)
      ensures rec == old(rec).(idem := rec.idem)
    {
      hide Oracle.At, Ready, Linked, CameTo, Tally, NextDue, Course, Stops, Requests, LeastWait, Inv, Valid, After;
      var backoff := cfg.initial;
      var deadline := now + cfg.maxJob;
      ghost var d := Done();
      mine := [];
      WellSet(Send);
      FirstDue();
      while true
        invariant Ready(Send) && old(trace) <= trace && old(turn) <= turn && (old(g.cancelled) ==> g.cancelled)
        invariant rec == old(rec).(idem := rec.idem)
        invariant now <= deadline && NextDue(old(now), old(naps), d, mine, backoff)
        decreases deadline - now
      {
        var over;
        over, backoff, wait, mine := CreateRound(backoff, deadline, old(now), old(naps), d, mine);
        if over.Some? {
          FewRequests(old(now), old(naps), d, mine);
          return over.value, wait, mine;
        }
      }
    }

    lemma FewRequests(started: int, was: seq<Nap>, d: Counts, mine: seq<Nap>)
      requires cfg.Positive() && Course(started, was, d, mine)
      ensures (Requests(d) - 1) * LeastWait(cfg) <= cfg.maxJob
    {
      BackedRises(cfg, fate, d.keys, mine);
      WaitsAreLong(cfg, 0);
      hide Oracle.At, Tally, Total, Backed;
      if Requests(d) == |mine| {
        OneMoreAsk(|mine| - 1, LeastWait(cfg));
      }
    }

    lemma FirstDue()
      requires cfg.Positive()
      ensures NextDue(now, naps, Done(), [], cfg.initial)
    {
      hide Oracle.At, Tally;
      assert naps + [] == naps;
    }

    // ---------------------------------------------------------------- waiting for the VM

    /** Polls until the VM is ready with credentials; `when` is the turn that said so. */
    method AwaitReady() returns (ok: bool, when: nat)
      requires Ready(Work)
      modifies `g, `trace, `turn, `now, `naps
      ensures Ready(Work) && old(trace) <= trace && old(turn) <= turn && (old(g.cancelled) ==> g.cancelled)
      ensures old(turn) <= when < turn
      ensures ok ==> Usable(fate.At(when).vm)
      ensures !ok ==> Doomed(fate.At(when).vm) || now > old(now) + cfg.provision || g.cancelled
      ensures old(now) <= now <= old(now) + cfg.provision + cfg.poll
    {
      hide Oracle.At, Inv, Valid, After, Can, Enabled, Apply;
      var deadline := now + cfg.provision;
      while true
        invariant Ready(Work) && old(trace) <= trace && old(turn) <= turn && (old(g.cancelled) ==> g.cancelled)
        invariant old(now) <= now <= deadline + cfg.poll
        decreases deadline + cfg.poll - now
      {
        when := turn;
        var f := Turn();
        match f.vm {
          case NoVm => return false, when;
          case VmUnknown =>
          case Vm(status, _, _) =>
            if Usable(f.vm) {
              return true, when;
            }
            if status == "error" || status == "deleting" {
              return false, when;
            }
        }
        if now > deadline || g.cancelled {
          return false, when;
        }
        f := Sleep(cfg.poll);
        if g.cancelled && !f.timerWins {
          return false, when;
        }
      }
    }

    // ---------------------------------------------------------------- bootstrapping

    /** Drops the registration an earlier try left, mints a fresh one and records it. `step`
        and `at` say what went wrong when; on success `at` is the turn of generate-jitconfig. */
    method Register() returns (ok: bool, step: Launch, at: nat)
      requires Ready(Work) && rec.state == Bootstrapping && rec.vm.Some?
      modifies `g, `trace, `turn, `runnerName, `runnerId, `dropped
      ensures Ready(Work) && old(trace) <= trace && (old(g.cancelled) ==> g.cancelled)
      ensures old(turn) <= at < turn
      ensures if ok then fate.At(at).jit == Some(runnerId) else Stuck(fate, step, at)
      ensures ok ==> runnerName == RunnerName(cfg.namePrefix, rec.vm.value, JobNumber(k), fate.At(at).nonce)
      ensures dropped == if (!ok && step == Download) || old(runnerId) == 0 then old(dropped) else old(dropped) + [old(runnerId)]
    {
      hide Oracle.At, Inv, Valid, After, Can, Enabled, Apply, RunnerName;
      at := turn;
      var f := Turn();
      if !f.urlKnown {
        return false, Download, at;
      }
      if runnerId != 0 {
        f := Turn();
        dropped := dropped + [runnerId];
        runnerId := 0;
      }
      at := turn;
      f := Turn();
      runnerName := RunnerName(cfg.namePrefix, rec.vm.value, JobNumber(k), f.nonce);
      if f.jit.None? {
        return false, Registration, at;
      }
      runnerId := f.jit.value;
      f := Turn();
      SaveMoves(cfg.limits, g, k, f.stored);
      Do(Save(k, f.stored), Work);
      return true, Registration, at;
    }

    /** Stages and launches the runner unless the VM's status file says that was done. */
    method BootstrapRunner() returns (ok: bool, step: Launch, at: nat)
      requires Ready(Work) && rec.state == Bootstrapping && rec.vm.Some?
      modifies `g, `trace, `turn, `runnerName, `runnerId, `dropped
      ensures Ready(Work) && old(trace) <= trace && (old(g.cancelled) ==> g.cancelled)
      ensures old(turn) <= at < turn
      ensures Launched(fate.At(old(turn)).exec) ==> ok && runnerName == old(runnerName) && runnerId == old(runnerId)
      ensures ok && !Launched(fate.At(old(turn)).exec) ==>
                && fate.At(at).jit == Some(runnerId)
                && runnerName == RunnerName(cfg.namePrefix, rec.vm.value, JobNumber(k), fate.At(at).nonce)
                && at + 2 < turn
                && Says(fate.At(turn - 2).exec, "staged") && Says(fate.At(turn - 1).exec, "launched")
      ensures !ok ==> Stuck(fate, step, at)
    {
      hide Oracle.At, Inv, Valid, After, Can, Enabled, Apply, RunnerName;
      step, at := Launching, turn;
      var f := Turn();
      if Launched(f.exec) {
        return true, step, at;
      }
      ok, step, at := Register();
      if !ok {
        return;
      }
      f := Turn();
      if !Says(f.exec, "staged") {
        return false, Staging, turn - 1;
      }
      f := Turn();
      ok := Says(f.exec, "launched");
      if !ok {
        step, at := Launching, turn - 1;
      }
    }

    // ---------------------------------------------------------------- monitoring

    /** Unknown counts as busy, a partial listing is no listing. */
    method Busy() returns (busy: bool, at: nat)
      requires Ready(Work)
      modifies `g, `trace, `turn
      ensures Ready(Work) && old(trace) <= trace && old(turn) <= turn && (old(g.cancelled) ==> g.cancelled)
      ensures at == old(turn) && turn == old(turn) + 1
      ensures busy <==> !ShownIdle(fate, runnerId, at)
    {
      hide Oracle.At, Inv, Valid, After, FirstBusy;
      at := turn;
      var f := Turn();
      var listing := ListRunners(f.runners, f.pagesLost);
      busy := RunnerBusy(listing, runnerId);
    }

    method MarkRunning()
      requires Ready(Work) && (rec.state == RunnerUp || rec.state == JobRunning)
      modifies `g, `trace, `turn, `rec
      ensures Ready(Work) && old(trace) <= trace && old(turn) <= turn && (old(g.cancelled) ==> g.cancelled)
      ensures rec == old(rec).(state := JobRunning)
    {
      hide Oracle.At, Inv, Valid, After, Can, Enabled, Apply;
      if rec.state != JobRunning {
        var f := Turn();
        WorkMoves(cfg.limits, g, k, JobRunning, f.stored);
        rec := rec.(state := JobRunning);
        Do(Advance(k, JobRunning, f.stored), Work);
      }
    }

    /** Consumes the events that arrived since the last tick. */
    method HandleEvents(events: seq<Event>) returns (jobDone: bool)
      requires Ready(Work) && (rec.state == RunnerUp || rec.state == JobRunning)
      modifies `g, `trace, `turn, `rec
      ensures Ready(Work) && old(trace) <= trace && old(turn) <= turn && (old(g.cancelled) ==> g.cancelled)
      ensures rec == old(rec).(state := rec.state) && (rec.state == old(rec.state) || rec.state == JobRunning)
      ensures jobDone <==> JobCompleted in events
      ensures rec.state == JobRunning <==> old(rec.state) == JobRunning || exists n :: 0 <= n < |events| && Claims(events[n], runnerName)
    {
      hide Oracle.At, Inv, Valid, After;
      jobDone := false;
      for n := 0 to |events|
        invariant Ready(Work) && old(trace) <= trace && old(turn) <= turn && (old(g.cancelled) ==> g.cancelled)
        invariant rec == old(rec).(state := rec.state) && (rec.state == old(rec.state) || rec.state == JobRunning)
        invariant jobDone <==> JobCompleted in events[..n]
        invariant rec.state == JobRunning <==> old(rec.state) == JobRunning || exists m :: 0 <= m < n && Claims(events[m], runnerName)
      {
        match events[n] {
          case InProgress(name) =>
            if name == "" || name == runnerName {
              MarkRunning();
            }
          case JobCompleted =>
            jobDone := true;
        }
      }
    }

    /** The in-VM marker, the truth about our runner; the only place where monitor reads it. */
    method ReadMarker(ghost since: Span) returns (verdict: Option<(Outcome, Reason)>)
      requires Ready(Work) && since.lo <= turn
      modifies `g, `trace, `turn, `marks
      ensures Ready(Work) && old(trace) <= trace && old(turn) < turn && (old(g.cancelled) ==> g.cancelled)
      ensures marks == old(marks) + [old(turn)]
      ensures verdict.Some? ==> Justified(cfg, fate, runnerId, rec.state, g.cancelled, verdict.value.0, verdict.value.1, Since(since.from, since.lo))
      ensures verdict.Some? <==> Decisive(fate.At(old(turn)).exec)
      ensures verdict.Some? ==> MarkerReason(verdict.value.1)
      ensures verdict.None? ==> turn == old(turn) + 1
    {
      hide Oracle.At, Inv, Valid, After, StatusOf, Tally;
      var at := turn;
      marks := marks + [turn];
      var f := Turn();
      match f.exec {
        case NoHost => return Some((MonitorFailed, VmGone(at)));
        case ExecFailed => return None;
        case Executed(_, stdout) =>
          var status := ParseStatus(stdout);
          if status.Failed() {
            return Some((MonitorFailed, MarkerFailed(at)));
          }
          if status.Done() {
            var asked := turn;
            f := Turn();
            return Some((MarkerOutcome(f.job, status.exit), MarkerExit(at, asked)));
          }
          return None;
      }
    }

    /** The slower GitHub poll: has the job finished, does our runner run it? */
    method PollJob() returns (jobDone: bool)
      requires Ready(Work) && (rec.state == RunnerUp || rec.state == JobRunning)
      modifies `g, `trace, `turn, `rec
      ensures Ready(Work) && old(trace) <= trace && old(turn) < turn && (old(g.cancelled) ==> g.cancelled)
      ensures jobDone <==> Finished(fate.At(old(turn)).job)
      ensures rec == if Ours(fate.At(old(turn)).job, runnerId, runnerName) then old(rec).(state := JobRunning) else old(rec)
    {
      hide Oracle.At, Inv, Valid, After;
      var f := Turn();
      jobDone := Finished(f.job);
      if f.job.Job? && f.job.status == "in_progress" {
        var ours := (f.job.runnerId != 0 && f.job.runnerId == runnerId) || (f.job.runnerId == 0 && f.job.runnerName == runnerName);
        if ours {
          MarkRunning();
        }
      }
    }

    /** The deadlines and the release of an idle VM; may extend the pickup deadline. `told`:
        the turn that said the job is over. */
    method CheckRelease(jobDone: bool, told: nat, pickup: int, jobDeadline: int, ghost since: Span)
      returns (verdict: Option<(Outcome, Reason)>, pickup': int)
      requires Ready(Work) && (rec.state == RunnerUp || rec.state == JobRunning)
      requires jobDeadline == since.from + cfg.maxJob && since.from + cfg.pickup <= pickup && since.from <= now
      requires since.lo <= turn && Mark() < turn && (jobDone ==> since.lo <= told < turn && Told(fate, told))
      modifies `g, `trace, `turn
      ensures Ready(Work) && old(trace) <= trace && old(turn) <= turn && (old(g.cancelled) ==> g.cancelled)
      ensures verdict.Some? ==> Justified(cfg, fate, runnerId, rec.state, g.cancelled, verdict.value.0, verdict.value.1, Since(since.from, since.lo))
      ensures verdict.Some? ==> !MarkerReason(verdict.value.1) && verdict.value.1 != Stopping
      ensures verdict.None? ==> now <= jobDeadline && (jobDone ==> !ShownIdle(fate, runnerId, old(turn)))
      ensures verdict.None? ==> pickup' == if rec.state == RunnerUp && now > pickup then now + cfg.pickup else pickup
      ensures pickup' >= pickup
    {
      hide Oracle.At, Inv, Valid, After, ShownIdle, Told, Tally;
      pickup' := pickup;
      if jobDone {
        var busy, at := Busy();
        if !busy {
          return Some((NotOurs, JobOver(told, at))), pickup';
        }
      }
      if rec.state == RunnerUp && now > pickup {
        var busy, at := Busy();
        if busy {
          pickup' := now + cfg.pickup;
        } else {
          var asked := turn;
          var f := Turn();
          return Some((if Finished(f.job) then NotOurs else MonitorFailed, NoPickup(at, asked))), pickup';
        }
      }
      if now > jobDeadline {
        return Some((MonitorFailed, OverBudget)), pickup';
      }
      return None, pickup';
    }

    /** What a tick knows at its end: a justified verdict, or no decisive marker and time left;
        and the turn that said the job is over. */
    ghost predicate Known(verdict: Option<(Outcome, Reason)>, jobDone: bool, told: nat, since: Span)
      reads this
    {
      && (jobDone ==> since.lo <= told < turn && Told(fate, told))
      && match verdict
         case None => now <= since.from + cfg.maxJob && Mark() >= 0 && !Decisive(fate.At(Mark()).exec)
         case Some((outcome, why)) =>
           && Justified(cfg, fate, runnerId, rec.state, g.cancelled, outcome, why, Since(since.from, since.lo))
           && (why == Stopping || MarkerReason(why) || (Mark() >= 0 && !Decisive(fate.At(Mark()).exec)))
    }

    /** The inspection of a tick: the marker once, every third time GitHub, and the release
        check. `told` is the turn that said the job is over, if anything did. */
    method Inspect(tickCount: nat, done: bool, told: nat, pickup: int, jobDeadline: int, ghost since: Span)
      returns (verdict: Option<(Outcome, Reason)>, jobDone: bool, told': nat, pickup': int)
      requires Ready(Work) && (rec.state == RunnerUp || rec.state == JobRunning)
      requires since.from <= now && since.from + cfg.pickup <= pickup && jobDeadline == since.from + cfg.maxJob
      requires since.lo <= turn && (done ==> since.lo <= told < turn && Told(fate, told))
      modifies `g, `trace, `turn, `rec, `marks
      ensures Ready(Work) && old(trace) <= trace && old(turn) < turn && (old(g.cancelled) ==> g.cancelled)
      ensures rec == old(rec).(state := rec.state) && (rec.state == old(rec.state) || rec.state == JobRunning)
      ensures pickup <= pickup' && Mark() == old(turn) && marks == old(marks) + [Mark()]
      ensures Known(verdict, jobDone, told', since) && (verdict.Some? ==> verdict.value.1 != Stopping)
      ensures done ==> jobDone
      ensures verdict.None? && tickCount % 3 == 0 && Finished(fate.At(old(turn) + 1).job) ==> jobDone
    {
      hide Oracle.At, Linked, Justified, Decisive, ShownIdle, Ours, Tally, Finished;
      pickup', jobDone, told' := pickup, done, told;
      verdict := ReadMarker(since);
      if verdict.Some? {
        return;
      }
      if tickCount % 3 == 0 {
        var polled := turn;
        var more := PollJob();
        if more {
          jobDone, told' := true, polled;
        }
      }
      verdict, pickup' := CheckRelease(jobDone, told', pickup, jobDeadline, since);
    }

    /** The sleep of a tick and the events that arrived meanwhile; `stop` on shutdown. */
    method TakeEvents(done: bool, told: nat, ghost lo: nat) returns (stop: bool, jobDone: bool, told': nat)
      requires Ready(Work) && (rec.state == RunnerUp || rec.state == JobRunning)
      requires lo <= turn && (done ==> lo <= told < turn && Told(fate, told))
      modifies `g, `trace, `turn, `rec, `now, `naps
      ensures Ready(Work) && old(trace) <= trace && old(turn) < turn && (old(g.cancelled) ==> g.cancelled)
      ensures rec == old(rec).(state := rec.state) && (rec.state == old(rec.state) || rec.state == JobRunning)
      ensures now == old(now) + cfg.statusPoll
      ensures stop <==> g.cancelled && !fate.At(old(turn)).timerWins
      ensures jobDone ==> lo <= told' < turn && Told(fate, told')
      ensures jobDone <==> done || JobCompleted in fate.At(old(turn)).events
    {
      hide Oracle.At, Linked, Claims, Tally, Finished;
      jobDone, told' := done, told;
      var slept := turn;
      var f := Sleep(cfg.statusPoll);
      var more := HandleEvents(f.events);
      if more {
        jobDone, told' := true, slept;
      }
      stop := g.cancelled && !f.timerWins;
    }

    /** One tick of the monitor: sleep, events, inspection. */
    method Tick(tickCount: nat, done: bool, told: nat, pickup: int, jobDeadline: int, ghost since: Span)
      returns (verdict: Option<(Outcome, Reason)>, jobDone: bool, told': nat, pickup': int)
      requires Ready(Work) && (rec.state == RunnerUp || rec.state == JobRunning)
      requires since.from <= now && since.from + cfg.pickup <= pickup && jobDeadline == since.from + cfg.maxJob
      requires since.lo <= turn && (done ==> since.lo <= told < turn && Told(fate, told))
      modifies `g, `trace, `turn, `rec, `now, `naps, `marks
      ensures Ready(Work) && old(trace) <= trace && old(turn) < turn && (old(g.cancelled) ==> g.cancelled)
      ensures rec == old(rec).(state := rec.state) && (rec.state == old(rec.state) || rec.state == JobRunning)
      ensures now == old(now) + cfg.statusPoll && pickup <= pickup'
      ensures if verdict.Some? && verdict.value.1 == Stopping then marks == old(marks)
              else old(turn) < Mark() < turn && marks == old(marks) + [Mark()]
      ensures Known(verdict, jobDone, told', since)
      ensures done || JobCompleted in fate.At(old(turn)).events ==> jobDone
    {
      hide Oracle.At, Ready, Linked, Known, Tally, Mark, Told, Valid, After, Inv;
      WellSet(Work);
      var stop;
      stop, jobDone, told' := TakeEvents(done, told, since.lo);
      if stop {
        StopKnown(jobDone, told', since);
        return Some((MonitorFailed, Stopping)), jobDone, told', pickup;
      }
      verdict, jobDone, told', pickup' := Inspect(tickCount, jobDone, told', pickup, jobDeadline, since);
    }

    lemma StopKnown(jobDone: bool, told: nat, since: Span)
      requires g.cancelled && (jobDone ==> since.lo <= told < turn && Told(fate, told))
      ensures Known(Some((MonitorFailed, Stopping)), jobDone, told, since)
    {
      hide Oracle.At;
    }

    /** Waits for the job to finish. The marker is read exactly at the turns `checks`, once a
        tick, and monitoring stops at the first decisive one. The VM is released only for a
        reason found behind the last of these reads: its own runner's marker, a vanished VM, a
        complete listing that shows the runner idle after the job was known to be over or the
        pickup time had passed, or the budget, which no extension of the pickup deadline moves. */
    method Monitor() returns (outcome: Outcome, why: Reason, ghost checks: seq<nat>)
      requires Ready(Work) && (rec.state == RunnerUp || rec.state == JobRunning)
      modifies `g, `trace, `turn, `rec, `now, `naps, `marks
      ensures Ready(Work) && old(trace) <= trace && old(turn) < turn && (old(g.cancelled) ==> g.cancelled)
      ensures rec == old(rec).(state := rec.state) && (rec.state == old(rec.state) || rec.state == JobRunning)
      ensures Justified(cfg, fate, runnerId, rec.state, g.cancelled, outcome, why, Since(old(now), old(turn)))
      ensures old(now) <= now <= old(now) + cfg.maxJob + cfg.statusPoll
      ensures marks == old(marks) + checks && Rising(checks, old(turn), turn)
      ensures now == old(now) + (if why == Stopping then |checks| + 1 else |checks|) * cfg.statusPoll
      ensures forall n :: 0 <= n < |checks| && Decisive(fate.At(checks[n]).exec) ==> n == |checks| - 1 && MarkerReason(why)
    {
      hide Oracle.At, Inv, Valid, After, Justified, Decisive, Tally, Rising;
      ghost var since := Span(now, now, turn, turn, Mark());
      var pickup := now + cfg.pickup;
      var jobDeadline := now + cfg.maxJob;
      var tickCount := 0;
      var jobDone := false;
      var told: nat := 0;
      checks := [];
      RisingNone(turn, turn);
      while true
        invariant Ready(Work) && old(trace) <= trace && old(turn) <= turn && (old(g.cancelled) ==> g.cancelled)
        invariant rec == old(rec).(state := rec.state) && (rec.state == RunnerUp || rec.state == JobRunning)
        invariant rec.state == old(rec.state) || rec.state == JobRunning
        invariant old(now) <= now <= jobDeadline && old(now) + cfg.pickup <= pickup
        invariant now == old(now) + |checks| * cfg.statusPoll
        invariant marks == old(marks) + checks && Rising(checks, old(turn), turn)
        invariant forall n :: 0 <= n < |checks| ==> !Decisive(fate.At(checks[n]).exec)
        invariant jobDone ==> old(turn) <= told < turn && Told(fate, told)
        decreases jobDeadline + cfg.statusPoll - now
      {
        OneMoreAsk(|checks|, cfg.statusPoll);
        tickCount := tickCount + 1;
        ghost var began := turn;
        var verdict;
        verdict, jobDone, told, pickup := Tick(tickCount, jobDone, told, pickup, jobDeadline, since);
        if verdict.None? || verdict.value.1 != Stopping {
          RisingOn(checks, old(turn), began, Mark(), turn);
          checks := checks + [Mark()];
        } else {
          RisingOn(checks, old(turn), began, -1, turn);
        }
        if verdict.Some? {
          return verdict.value.0, verdict.value.1, checks;
        }
      }
    }

    // ---------------------------------------------------------------- deleting

    /** The i-th DELETE and, if it failed, the pause behind it. */
    method DeleteOnce(i: nat, final: bool) returns (ok: bool)
      requires i < 3 && Ready(Cleanup(i, final)) && rec.vm.Some?
      modifies `g, `trace, `turn, `now, `naps
      ensures Ready(if !ok && i < 2 then Cleanup(i + 1, final) else if final then Freed else Erred(true))
      ensures ok == Deleted(fate.At(old(turn)))
      ensures Done() == old(Done()).(deletes := old(Done()).deletes + 1)
      ensures old(trace) <= trace && old(turn) < turn && (old(g.cancelled) ==> g.cancelled)
      ensures old(now) <= now <= old(now) + 2 * SECOND && (ok ==> turn == old(turn) + 1)
    {
      hide Oracle.At, Inv, Valid, After, Can, Enabled, Apply, Tally;
      ghost var over := if final then Freed else Erred(true);
      var f := Turn();
      ok := f.deleteActs && f.deleteReplies;
      CleanupMoves(cfg.limits, g, k, f.deleteActs, ok);
      Do(TryDelete(k, f.deleteActs, ok), if !ok && i < 2 then Cleanup(i + 1, final) else over);
      if !ok && !g.cancelled {
        f := Sleep(2 * SECOND);
      }
    }

    /** Bounded retries, carried through even when the process is stopping: three tries, fewer
        only if the last one succeeded. */
    method DeleteVm(final: bool)
      requires Ready(Cleanup(0, final)) && rec.vm.Some?
      modifies `g, `trace, `turn, `now, `naps
      ensures Ready(if final then Freed else Erred(true))
      ensures old(trace) <= trace && old(turn) < turn && (old(g.cancelled) ==> g.cancelled)
      ensures old(now) <= now <= old(now) + 3 * (2 * SECOND)
      ensures 1 <= Done().deletes - old(Done()).deletes <= 3
      ensures Done().deletes - old(Done()).deletes < 3 ==> Deleted(fate.At(turn - 1))
    {
      hide Oracle.At, Linked, Deleted, Tally;
      for i := 0 to 3
        invariant Ready(if i < 3 then Cleanup(i, final) else if final then Freed else Erred(true))
        invariant old(trace) <= trace && old(turn) <= turn && (i > 0 ==> old(turn) < turn) && (old(g.cancelled) ==> g.cancelled)
        invariant old(now) <= now <= old(now) + i * (2 * SECOND)
        invariant Done().deletes == old(Done()).deletes + i
      {
        var ok := DeleteOnce(i, final);
        if ok {
          return;
        }
      }
    }

    /** After a genuine failure the VM is deleted; a stopping process keeps it for resume. */
    method FailCleanup() returns (next: Pc)
      requires Ready(Work) && rec.state.Rank() <= 5 && rec.vm.Some?
      modifies `g, `trace, `turn, `now, `naps
      ensures Ready(next) && (next == Erred(true) || (next == Exiting && g.cancelled))
      ensures old(g.cancelled) ==> next == Exiting && g == Goto(old(g), k, Exiting)
      ensures old(trace) <= trace && old(turn) <= turn && (old(g.cancelled) ==> g.cancelled)
      ensures old(now) <= now <= old(now) + 6 * SECOND
    {
      hide Oracle.At, Inv, Valid, After, Can, Enabled, Apply;
      WorkMoves(cfg.limits, g, k, rec.state, true);
      if g.cancelled {
        StopsAt(cfg.limits, g, k);
        Do(Stop(k), Exiting);
        return Exiting;
      }
      Do(Fail(k), Cleanup(0, false));
      DeleteVm(false);
      return Erred(true);
    }

    /** The DELETING block: release the VM, drop a leftover registration (listed at turn `at`),
        complete the record. */
    method Drain() returns (removed: bool, at: nat)
      requires Ready(Work) && PastJob(rec.state) && rec.vm.Some?
      modifies `g, `trace, `turn, `rec, `now, `naps
      ensures Ready(Exiting) && rec == old(rec).(state := Complete)
      ensures old(trace) <= trace && old(turn) <= turn && (old(g.cancelled) ==> g.cancelled)
      ensures old(now) <= now <= old(now) + 6 * SECOND
      ensures removed ==> old(turn) <= at < turn
      ensures removed <==> runnerId != 0 && AllPages(fate.At(at)) && OwnReapable(fate.At(at).runners, runnerId)
    {
      hide Oracle.At, Inv, Valid, After, Can, Enabled, Apply, OwnReapable;
      var f := Turn();
      WorkMoves(cfg.limits, g, k, Deleting, f.stored);
      rec := rec.(state := Deleting);
      Do(Release(k, f.stored), Cleanup(0, true));
      DeleteVm(true);
      removed, at := RemoveRegistration();
      f := Turn();
      FreedMoves(cfg.limits, g, k, f.stored);
      rec := rec.(state := Complete);
      Do(Finish(k, f.stored), Exiting);
    }

    /** Best effort: only a reapable registration of our own runner is removed. */
    method RemoveRegistration() returns (removed: bool, at: nat)
      requires Ready(Freed)
      modifies `g, `trace, `turn
      ensures Ready(Freed) && old(trace) <= trace && old(turn) <= turn && (old(g.cancelled) ==> g.cancelled)
      ensures removed ==> old(turn) <= at < turn
      ensures removed <==> runnerId != 0 && AllPages(fate.At(at)) && OwnReapable(fate.At(at).runners, runnerId)
    {
      hide Oracle.At, Inv, Valid, After;
      at := turn;
      removed := false;
      if runnerId != 0 {
        var f := Turn();
        var listing := ListRunners(f.runners, f.pagesLost);
        if listing.Full? {
          var n := 0;
          while n < |listing.runners| && !removed
            invariant 0 <= n <= |listing.runners|
            invariant removed ==> OwnReapable(fate.At(at).runners, runnerId)
            invariant !removed ==> forall i :: 0 <= i < n ==> !(listing.runners[i].id == runnerId && listing.runners[i].Reapable())
            decreases |listing.runners| - n, !removed
          {
            if listing.runners[n].id == runnerId && listing.runners[n].Reapable() {
              removed := true;
            }
            n := n + 1;
          }
        }
      }
    }

    // ---------------------------------------------------------------- one attempt

    /** Mints a key unless an interrupted create left one, and persists it. */
    method WriteKeyAhead() returns (ok: bool)
      requires Ready(Dispatch) && rec.state.Rank() <= 1
      modifies `g, `trace, `turn, `rec
      ensures Ready(if ok then Send else Erred(true))
      ensures turn > old(turn) && ok == fate.At(turn - 1).stored
      ensures rec == old(rec).(state := Creating, idem := rec.idem)
      ensures old(rec).state == Creating ==> rec == old(rec)
      ensures old(trace) <= trace && old(turn) <= turn && (old(g.cancelled) ==> g.cancelled)
    {
      hide Oracle.At, Inv, Valid, After, Can, Enabled, Apply;
      var f := Turn();
      DispatchMoves(cfg.limits, g, k, f.stored);
      rec := EnterCreating(g, k, rec);
      ok := f.stored;
      Do(Enter(k, ok), if ok then Send else Erred(true));
    }

    method RecordMachine(v: VmId)
      requires Ready(GotVm(v))
      modifies `g, `trace, `turn, `rec
      ensures Ready(Work) && rec == old(rec).(vm := Some(v), state := WaitReady)
      ensures old(trace) <= trace && old(turn) <= turn && (old(g.cancelled) ==> g.cancelled)
    {
      hide Oracle.At, Inv, Valid, After, Can, Enabled, Apply;
      var f := Turn();
      GotVmMoves(cfg.limits, g, k, f.stored);
      rec := rec.(vm := Some(v), state := WaitReady);
      Do(RecordVm(k, f.stored), Work);
    }

    /** The job finished while its create was backing off. */
    method CompleteUnneeded()
      requires Ready(Backoff)
      modifies `g, `trace, `turn, `rec
      ensures Ready(Exiting) && rec == old(rec).(state := Complete)
      ensures old(trace) <= trace && old(turn) <= turn && (old(g.cancelled) ==> g.cancelled)
    {
      hide Oracle.At, Inv, Valid, After, Can, Enabled, Apply;
      var f := Turn();
      BackoffMoves(cfg.limits, g, k);
      rec := rec.(state := Complete);
      Do(Vanish(k, f.stored), Exiting);
    }

    /** The CREATING block: ends with a recorded VM, a record that needs none, or an error. */
    method CreatingBlock() returns (next: Pc, why: Reason)
      requires Ready(Dispatch) && rec.state.Rank() <= 1
      modifies `g, `trace, `turn, `rec, `now, `naps
      ensures Ready(next) && (next == Work || next == Exiting || next.Erred?)
      ensures next == Work ==> rec.state == WaitReady && !PastJob(rec.state)
      ensures next == Exiting ==> rec.state == Complete && Over(fate, runnerId, why, Since(old(now), old(turn)))
      ensures next.Erred? ==> rec.state == Creating && why.Uncreated? && why.retryable == next.retryable && (g.cancelled || NoVmCause(cfg, fate, g, rec.idem, why, Since(old(now), old(turn))))
      ensures rec.retry == old(rec.retry)
      ensures old(trace) <= trace && old(turn) <= turn && (old(g.cancelled) ==> g.cancelled)
      ensures old(now) <= now <= old(now) + cfg.maxJob
    {
      hide Oracle.At, Inv, Valid, After, Finished, NoReply, Enabled, Apply, Tally;
      var ok := WriteKeyAhead();
      if !ok {
        return Erred(true), Uncreated(turn - 1, 0, true);
      }
      var r, wait, _ := CreateVm();
      why := Uncreated(turn - 1, wait, r == AskFailed(true));
      match r {
        case AskFailed(retryable) =>
          return Erred(retryable), why;
        case NotNeeded =>
          why := Unneeded(turn - 1);
          CompleteUnneeded();
          return Exiting, why;
        case GotMachine(v) =>
          RecordMachine(v);
          return Work, why;
      }
    }

    /** One best-effort store of the next state. */
    method AdvanceTo(to: JobState)
      requires Ready(Work) && Follows(rec.state, to)
      modifies `g, `trace, `turn, `rec
      ensures Ready(Work) && rec == old(rec).(state := to)
      ensures old(trace) <= trace && old(turn) <= turn && (old(g.cancelled) ==> g.cancelled)
    {
      hide Oracle.At, Inv, Valid, After, Can, Enabled, Apply;
      var f := Turn();
      WorkMoves(cfg.limits, g, k, to, f.stored);
      rec := rec.(state := to);
      Do(Advance(k, to, f.stored), Work);
    }

    /** WAIT_READY and BOOTSTRAPPING, as far as they are still ahead. */
    method PrepareBlock() returns (ok: bool, why: Reason)
      requires Ready(Work) && 2 <= rec.state.Rank() <= 5
      modifies `g, `trace, `turn, `rec, `now, `naps, `marks, `dropped, `runnerName, `runnerId
      ensures Ready(Work) && 2 <= rec.state.Rank() <= 5 && rec == old(rec).(state := rec.state)
      ensures ok ==> rec.state == RunnerUp || rec.state == JobRunning
      ensures !ok ==> (why.Unready? || why.Unlaunched?) && (g.cancelled || Cause(cfg, fate, runnerId, why, Since(old(now), old(turn))))
      ensures old(trace) <= trace && old(turn) <= turn && (old(g.cancelled) ==> g.cancelled)
      ensures old(now) <= now <= old(now) + cfg.provision + cfg.poll
    {
      hide Oracle.At, Inv, Valid, After, Can, Enabled, Apply, StatusOf, RunnerName, Doomed, Usable, Says, ShownIdle, ExitGives, FailedAt;
      HoldsVm(cfg.limits, g, k);
      assert rec.vm.Some? && cfg.Positive();
      hide Ready, Linked;
      why := OverBudget;
      if rec.state == WaitReady {
        var usable, when := AwaitReady();
        if !usable {
          return false, Unready(when);
        }
        AdvanceTo(Bootstrapping);
      }
      if rec.state == Bootstrapping {
        var launched, step, at := BootstrapRunner();
        if !launched {
          return false, Unlaunched(step, at);
        }
        AdvanceTo(RunnerUp);
      }
      return true, why;
    }

    /** Up to the end of the job, unless something fails. */
    method WorkBlock() returns (ok: bool, why: Reason)
      requires Ready(Work) && 2 <= rec.state.Rank() <= 5
      modifies `g, `trace, `turn, `rec, `now, `naps, `marks, `dropped, `runnerName, `runnerId
      ensures Ready(Work) && rec == old(rec).(state := rec.state)
      ensures if ok then PastJob(rec.state) else 2 <= rec.state.Rank() <= 5 && rec.state != Complete
      ensures if ok then Over(fate, runnerId, why, Since(old(now), old(turn))) else g.cancelled || Cause(cfg, fate, runnerId, why, Since(old(now), old(turn)))
      ensures old(trace) <= trace && old(turn) <= turn && (old(g.cancelled) ==> g.cancelled)
      ensures old(now) <= now <= old(now) + cfg.provision + cfg.poll + cfg.maxJob + cfg.statusPoll
    {
      hide Oracle.At, Inv, Valid, After, Can, Enabled, Apply, Justified, Cause, Over;
      ok, why := PrepareBlock();
      if ok {
        ghost var began, lo := now, turn;
        var outcome, reason, _ := Monitor();
        why := reason;
        ghost var v := Since(began, lo);
        Verdict(cfg, fate, runnerId, rec.state, g.cancelled, outcome, why, v);
        if outcome == MonitorFailed && !g.cancelled {
          CauseStays(cfg, fate, runnerId, why, v, Since(old(now), old(turn)));
        }
        ok := outcome != MonitorFailed;
        if ok {
          AdvanceTo(JobDone);
          OverStays(fate, runnerId, why, v, Since(old(now), old(turn)));
        }
      }
    }

    /** From a recorded VM on, while the job is not over: COMPLETE only when no VM is needed any
        more, an error only for a cause. */
    method LiveBlock() returns (next: Pc, why: Reason)
      requires Ready(Work) && 2 <= rec.state.Rank() <= 5 && rec.vm.Some?
      modifies `g, `trace, `turn, `rec, `now, `naps, `marks, `dropped, `runnerName, `runnerId
      ensures Ready(next) && rec.retry == old(rec.retry)
      ensures if next == Exiting then g.cancelled || rec.state == Complete else next == Erred(true)
      ensures rec.state == Complete ==> Over(fate, runnerId, why, Since(old(now), old(turn)))
      ensures next == Erred(true) ==> Cause(cfg, fate, runnerId, why, Since(old(now), old(turn)))
      ensures old(trace) <= trace && old(turn) <= turn && (old(g.cancelled) ==> g.cancelled)
      ensures old(now) <= now <= old(now) + MachineBound(cfg)
    {
      hide Oracle.At, Ready, Linked, OwnReapable, Cause, Over, AllPages, PastJob;
      var ok;
      ok, why := WorkBlock();
      ghost var v := Since(old(now), old(turn));
      if ok {
        var _, _ := Drain();
        OverStays(fate, runnerId, why, v, Since(old(now), old(turn)));
        return Exiting, why;
      }
      next := FailCleanup();
      if next == Erred(true) {
        CauseStays(cfg, fate, runnerId, why, v, Since(old(now), old(turn)));
      }
    }

    /** From a recorded VM to the end of the attempt. */
    method MachineBlock() returns (next: Pc, why: Reason)
      requires Ready(Work)
      modifies `g, `trace, `turn, `rec, `now, `naps, `marks, `dropped, `runnerName, `runnerId
      ensures Ready(next) && rec.retry == old(rec.retry)
      ensures if next == Exiting then g.cancelled || rec.state == Complete else next == Erred(true)
      ensures rec.state == Complete ==> PastJob(old(rec.state)) || Over(fate, runnerId, why, Since(old(now), old(turn)))
      ensures next == Erred(true) ==> Cause(cfg, fate, runnerId, why, Since(old(now), old(turn)))
      ensures old(trace) <= trace && old(turn) <= turn && (old(g.cancelled) ==> g.cancelled)
      ensures old(now) <= now <= old(now) + MachineBound(cfg)
    {
      HoldsVm(cfg.limits, g, k);
      assert cfg.Positive() && 2 <= rec.state.Rank() && rec.vm.Some? && (rec.state.Rank() <= 5 || PastJob(rec.state));
      hide Oracle.At, Ready, Linked, OwnReapable, Cause, Over, AllPages, PastJob;
      if rec.state.Rank() <= 5 {
        next, why := LiveBlock();
      } else {
        why := OverBudget;
        next := Exiting;
        var _, _ := Drain();
      }
    }

    /** A record with a VM is taken up where it stands. */
    method TakeUp()
      requires Ready(Dispatch) && rec.state.Rank() >= 2
      modifies `g, `trace
      ensures Ready(Work) && old(trace) <= trace && g.cancelled == old(g.cancelled)
    {
      hide Inv, Valid, After;
      DispatchMoves(cfg.limits, g, k, true);
      hide Can, Enabled, Apply;
      Do(Begin(k), Work);
    }

    /** Where an attempt starts: with creating, or with the VM the record has. */
    method StartBlock() returns (next: Pc, why: Reason)
      requires Ready(Dispatch)
      modifies `g, `trace, `turn, `rec, `now, `naps
      ensures Ready(next) && (next == Work || next == Exiting || next.Erred?)
      ensures next == Work && PastJob(rec.state) ==> PastJob(old(rec.state))
      ensures next == Exiting ==> rec.state == Complete && Over(fate, runnerId, why, Since(old(now), old(turn)))
      ensures next.Erred? ==> rec.state == Creating && (g.cancelled || NoVmCause(cfg, fate, g, rec.idem, why, Since(old(now), old(turn))))
      ensures rec.retry == old(rec.retry)
      ensures old(trace) <= trace && old(turn) <= turn && (old(g.cancelled) ==> g.cancelled)
      ensures old(now) <= now <= old(now) + cfg.maxJob
    {
      hide Oracle.At, Ready, Linked, NoVmCause, Over, PastJob, Inv, Valid, After, Tally;
      WellSet(Dispatch);
      why := OverBudget;
      if rec.state.Rank() <= 1 {
        next, why := CreatingBlock();
      } else {
        TakeUp();
        next := Work;
      }
    }

    /** From the record's current state to a terminal state, an error, or a shutdown; every way
        of ending has its reason. */
    method Attempt() returns (next: Pc, why: Reason)
      requires Ready(Dispatch)
      modifies `g, `trace, `turn, `rec, `now, `naps, `marks, `dropped, `runnerName, `runnerId
      ensures Ready(next) && (next == Exiting || next.Erred?)
      ensures next == Exiting ==> rec.state == Complete || g.cancelled
      ensures rec.state == Complete ==> PastJob(old(rec.state)) || Over(fate, runnerId, why, Since(old(now), old(turn)))
      ensures next.Erred? ==> g.cancelled || NoVmCause(cfg, fate, g, rec.idem, why, Since(old(now), old(turn))) || Cause(cfg, fate, runnerId, why, Since(old(now), old(turn)))
      ensures rec.retry == old(rec.retry)
      ensures old(trace) <= trace && old(turn) <= turn && (old(g.cancelled) ==> g.cancelled)
      ensures old(now) <= now <= old(now) + cfg.maxJob + MachineBound(cfg)
    {
      hide Oracle.At, Ready, Linked, Cause, NoVmCause, Over, MachineBound, PastJob, Inv, Valid, After, Tally;
      WellSet(Dispatch);
      next, why := StartBlock();
      if next == Work {
        ghost var began, lo := now, turn;
        next, why := MachineBlock();
        if next.Erred? {
          CauseStays(cfg, fate, runnerId, why, Since(began, lo), Since(old(now), old(turn)));
        }
        if rec.state == Complete && !PastJob(old(rec.state)) {
          OverStays(fate, runnerId, why, Since(began, lo), Since(old(now), old(turn)));
        }
      }
    }

    // ---------------------------------------------------------------- the whole job

    /** What follows an error: failure, completion, one more try, or leaving on shutdown. */
    method AfterError(retryable: bool) returns (next: Pc, ghost asked: nat)
      requires Ready(Erred(retryable))
      modifies `g, `trace, `turn, `rec
      ensures Ready(next) && (next == Exiting || next == Pace)
      ensures next == Exiting ==> rec.state.Terminal() || g.cancelled
      ensures next == Exiting && !g.cancelled ==>
                if !retryable || old(rec.retry) >= cfg.limits.maxRetries then rec.state == Failed
                else rec.state == Complete && Finished(fate.At(asked).job)
      ensures old(turn) <= asked < turn && (next == Pace ==> !Finished(fate.At(asked).job))
      ensures next == Pace ==> retryable && old(rec.retry) < cfg.limits.maxRetries && rec == Retried(old(rec))
      ensures old(trace) <= trace && old(turn) <= turn && (old(g.cancelled) ==> g.cancelled)
    {
      hide Oracle.At, Inv, Valid, After, Can, Enabled, Apply;
      asked := turn;
      var f := Turn();
      ErredMoves(cfg.limits, g, k, f.stored);
      if g.cancelled {
        Do(Abort(k), Exiting);
        return Exiting, asked;
      }
      if !retryable || rec.retry >= cfg.limits.maxRetries {
        rec := rec.(state := Failed);
        Do(Settle(k, f.stored), Exiting);
        return Exiting, asked;
      }
      asked := turn;
      f := Turn();
      ErredMoves(cfg.limits, g, k, f.stored);
      if Finished(f.job) {
        rec := rec.(state := Complete);
        Do(Moot(k, f.stored), Exiting);
        return Exiting, asked;
      }
      rec := Retried(rec);
      Do(Protocol.Retry(k, f.stored), Pace);
      return Pace, asked;
    }

    /** Paces the next attempt. */
    method PaceRetry() returns (next: Pc)
      requires Ready(Pace)
      modifies `g, `trace, `turn, `now, `naps
      ensures Ready(next) && (next == Dispatch || (next == Exiting && g.cancelled))
      ensures old(trace) <= trace && now == old(now) + rec.retry * cfg.initial
    {
      hide Oracle.At, Inv, Valid, After, Can, Enabled, Apply;
      var f := Sleep(rec.retry * cfg.initial);
      PaceMoves(cfg.limits, g, k);
      if g.cancelled && !f.timerWins {
        Do(Abort(k), Exiting);
        return Exiting;
      }
      Do(Again(k), Dispatch);
      return Dispatch;
    }

    /** A worker with a slot finishes its record, or leaves it for resume on shutdown; in
        bounded time either way. */
    method RunJob()
      requires Ready(Dispatch)
      modifies `g, `trace, `turn, `rec, `now, `naps, `marks, `dropped, `runnerName, `runnerId
      ensures Ready(Exiting) && (rec.state.Terminal() || g.cancelled)
      ensures old(trace) <= trace
      ensures old(now) <= now <= old(now) + LifeBound(cfg, old(rec.retry))
    {
      hide Oracle.At, Inv, Valid, After, LifeBound;
      LifeUnfolds(cfg, rec.retry);
      var next := Dispatch;
      while next != Exiting
        invariant Ready(next) && (next == Dispatch || (next == Exiting && (rec.state.Terminal() || g.cancelled)))
        invariant old(trace) <= trace
        invariant old(now) <= now <= old(now) + LifeBound(cfg, old(rec.retry))
        invariant next == Dispatch ==> now + LifeBound(cfg, rec.retry) <= old(now) + LifeBound(cfg, old(rec.retry))
        decreases next != Exiting, cfg.limits.maxRetries - rec.retry
      {
        LifeUnfolds(cfg, rec.retry);
        var end, _ := Attempt();
        next := end;
        if next != Exiting {
          var after, _ := AfterError(next.retryable);
          next := after;
          if next == Pace {
            LifeUnfolds(cfg, rec.retry);
            next := PaceRetry();
          }
        }
      }
    }
  }

  datatype Outcome = OurJobDone | NotOurs | MonitorFailed

  /** The steps of bootstrapRunner that can fail. */
  datatype Launch = Download | Registration | Staging | Launching

  /** What ended an attempt; `told`, `at`, `asked`, `when` and `last` are turns. */
  datatype Reason =
    | Unneeded(asked: nat)              // GitHub called the job completed before there was a VM
    | Uncreated(last: nat, wait: int, retryable: bool)
    | Unready(when: nat)                // the VM never became usable
    | Unlaunched(step: Launch, at: nat) // the runner could not be registered, staged or launched
    | MarkerExit(at: nat, asked: nat)   // our runner exited; GitHub was asked about the job
    | MarkerFailed(at: nat)             // the bootstrap failed in the VM
    | VmGone(at: nat)                   // exec answered 404
    | JobOver(told: nat, at: nat)       // the job was known to be over, then our runner was idle
    | NoPickup(at: nat, asked: nat)     // no job arrived in time and our runner is idle
    | OverBudget
    | Stopping

  predicate PastJob(st: JobState) {
    st == JobDone || st == Deleting
  }

  predicate MarkerReason(why: Reason) {
    why.MarkerExit? || why.MarkerFailed? || why.VmGone?
  }

  /** After our runner exited: GitHub's word on the job, or the exit code when it has none. */
  function MarkerOutcome(r: JobReply, exit: int): Outcome {
    if r.JobUnknown? then (if exit == 0 then OurJobDone else MonitorFailed)
    else if r.status == "completed" then OurJobDone
    else if r.status == "in_progress" then NotOurs
    else if StillOpen(r.status) then MonitorFailed
    else if exit == 0 then OurJobDone else MonitorFailed
  }

  predicate StillOpen(status: string) {
    status in ["queued", "waiting", "requested", "pending"]
  }

  /** After our runner exited a record is done although GitHub does not call its job completed
      exactly if a sibling runs the job, or the runner exited with 0 and GitHub gives no answer
      or none that it documents. */
  lemma DoneWithoutGithub(r: JobReply, exit: int)
    ensures MarkerOutcome(r, exit) != MonitorFailed && !Finished(r) <==>
            || (r.Job? && r.status == "in_progress")
            || (exit == 0 && (r.JobUnknown? || !(r.status == "completed" || r.status == "in_progress" || StillOpen(r.status))))
  {
  }

  /** The full readiness contract: ready, with credentials published. */
  predicate Usable(r: VmReply) {
    r.Vm? && r.status == "ready" && r.username != "" && r.websocket != ""
  }

  /** An exec reply whose status text shows the bootstrap has started. */
  predicate Launched(r: ExecReply) {
    r.Executed? && StatusOf(r.stdout).Launched()
  }

  /** execOK: exit code zero and the expected word in the output. */
  predicate Says(r: ExecReply, sentinel: string) {
    r.Executed? && r.code == 0 && Find(r.stdout, sentinel, 0).Some?
  }

  /** Job IDs are positive. */
  function JobNumber(k: Key): nat {
    if k.jobId >= 0 then k.jobId else 0
  }

  /** jobAlreadyFinished. */
  predicate Finished(r: JobReply) {
    r.Job? && r.status == "completed"
  }

  // ---------------------------------------------------------------- time bounds

  /** From a recorded VM to the end of an attempt. */
  function MachineBound(cfg: Config): int {
    cfg.provision + cfg.poll + cfg.maxJob + cfg.statusPoll + 6 * SECOND
  }

  /** All sleeping of a job that stands at try `retry`. */
  function LifeBound(cfg: Config, retry: nat): int
    decreases cfg.limits.maxRetries - retry
  {
    cfg.maxJob + MachineBound(cfg) +
    if retry < cfg.limits.maxRetries then (retry + 1) * cfg.initial + LifeBound(cfg, retry + 1) else 0
  }

  lemma LifeUnfolds(cfg: Config, retry: nat)
    requires cfg.Positive()
    ensures LifeBound(cfg, retry) >= cfg.maxJob + MachineBound(cfg)
    ensures retry < cfg.limits.maxRetries ==>
              LifeBound(cfg, retry) == cfg.maxJob + MachineBound(cfg) + (retry + 1) * cfg.initial + LifeBound(cfg, retry + 1)
  {
    LifePositive(cfg, retry);
  }

  lemma {:induction false} LifePositive(cfg: Config, retry: nat)
    requires cfg.Positive()
    ensures LifeBound(cfg, retry) >= cfg.maxJob + MachineBound(cfg)
    decreases cfg.limits.maxRetries - retry
  {
    if retry < cfg.limits.maxRetries {
      LifePositive(cfg, retry + 1);
      assert (retry + 1) * cfg.initial >= 0;
    }
  }

  /** The bound in closed form, for a job with `left` retries to go. */
  lemma {:induction false} LifeClosedForm(cfg: Config, retry: nat)
    requires retry <= cfg.limits.maxRetries
    ensures var top := cfg.limits.maxRetries;
            2 * LifeBound(cfg, retry) ==
            2 * (top - retry + 1) * (cfg.maxJob + MachineBound(cfg)) + (top * (top + 1) - retry * (retry + 1)) * cfg.initial
    decreases cfg.limits.maxRetries - retry
  {
    if retry < cfg.limits.maxRetries {
      LifeClosedForm(cfg, retry + 1);
      Sum(cfg.limits.maxRetries, retry, cfg.maxJob + MachineBound(cfg), cfg.initial);
    } else {
      assert cfg.limits.maxRetries - retry + 1 == 1;
    }
  }

  /** A fresh job with R retries sleeps at most
      (R + 1) * (2 maxJob + provision + poll + statusPoll + 6s) + initial * R(R + 1) / 2. */
  lemma WholeLife(cfg: Config)
    ensures var r := cfg.limits.maxRetries;
            2 * LifeBound(cfg, 0) ==
            2 * (r + 1) * (2 * cfg.maxJob + cfg.provision + cfg.poll + cfg.statusPoll + 6 * SECOND) + r * (r + 1) * cfg.initial
  {
    LifeClosedForm(cfg, 0);
  }

  lemma Sum(top: int, r: int, a: int, i: int)
    ensures 2 * a + 2 * ((r + 1) * i) + (2 * (top - (r + 1) + 1) * a + (top * (top + 1) - (r + 1) * (r + 1 + 1)) * i)
         == 2 * (top - r + 1) * a + (top * (top + 1) - r * (r + 1)) * i
  {
    var t := top * (top + 1);
    assert (r + 1) * (r + 1 + 1) == r * (r + 1) + 2 * (r + 1);
    assert (t - (r * (r + 1) + 2 * (r + 1))) * i == (t - r * (r + 1)) * i - 2 * (r + 1) * i;
    assert 2 * (top - r + 1) * a == 2 * (top - r) * a + 2 * a;
  }

  // ---------------------------------------------------------------- capacity backoff

  function Pow2(n: nat): nat {
    if n == 0 then 1 else 2 * Pow2(n - 1)
  }

  /** The n-th capacity wait of one createVM call: the initial one uncapped, then doubled up
      to the maximum. */
  function CapacityWait(cfg: Config, n: nat): int {
    if n == 0 then cfg.initial else Min(Pow2(n) * cfg.initial, cfg.max)
  }

  function LeastWait(cfg: Config): int {
    Min(Min(cfg.initial, cfg.max), SECOND)
  }

  lemma BackoffDoubles(cfg: Config, n: nat)
    requires cfg.Positive()
    ensures Min(CapacityWait(cfg, n) * 2, cfg.max) == CapacityWait(cfg, n + 1)
  {
    assert Pow2(n + 1) * cfg.initial == 2 * (Pow2(n) * cfg.initial);
  }

  lemma WaitsAreLong(cfg: Config, n: nat)
    requires cfg.Positive()
    ensures 0 < LeastWait(cfg) <= SECOND && LeastWait(cfg) <= CapacityWait(cfg, n)
  {
    Pow2Grows(n);
    assert Pow2(n) * cfg.initial >= cfg.initial;
  }

  lemma OneMoreAsk(asks: int, least: int)
    ensures (asks + 1) * least == asks * least + least
  {
  }

  lemma {:induction false} Pow2Grows(n: nat)
    ensures Pow2(n) >= 1
  {
    if n > 0 {
      Pow2Grows(n - 1);
    }
  }

  // ---------------------------------------------------------------- what a worker may do where

  /** `a` is possible and leaves the worker of `k` at `pc` with record `r`. */
  ghost predicate Can(lim: Limits, s: Sys, k: Key, a: Action, r: Progress, pc: Pc) {
    && Enabled(lim, s, a)
    && var t := Apply(lim, s, a);
    && k in t.workers && t.workers[k] == Worker(r, pc)
    && t.cancelled == s.cancelled && t.answers == s.answers
  }

  /** A worker about to send knows its key. */
  lemma SendMoves(lim: Limits, s: Sys, k: Key)
    requires Inv(lim, s) && At(s, k, Send)
    ensures var r := s.workers[k].rec;
            && r.idem.Some? && r.state == Creating
            && Can(lim, s, k, PostFails(k), r, Erred(true))
            && (!s.cancelled ==> Can(lim, s, k, Post(k), r, Await))
  {
    assert Employed(s, k);
    assert Standing(s, k, s.workers[k]);
    assert Sound(lim, s, k, s.workers[k].rec);
  }

  lemma AwaitMoves(lim: Limits, s: Sys, k: Key)
    requires At(s, k, Await) && s.workers[k].rec.idem.Some?
    ensures var r := s.workers[k].rec;
            && Can(lim, s, k, RateLimited(k), r, Backoff)
            && Can(lim, s, k, ReplyLost(k), r, Erred(true))
            && (r.idem.value in s.answers ==>
                  Can(lim, s, k, Protocol.Reply(k), r,
                      match s.answers[r.idem.value] case Created(v) => GotVm(v) case Rejected => Refused))
  {
  }

  lemma RefusedMoves(lim: Limits, s: Sys, k: Key, ok: bool)
    requires At(s, k, Refused)
    ensures var r := s.workers[k].rec;
            Can(lim, s, k, FreshKey(k, ok), r.(idem := Some(Mint(s, k, r))), if ok then Backoff else Erred(true))
  {
  }

  lemma WorkMoves(lim: Limits, s: Sys, k: Key, to: JobState, ok: bool)
    requires At(s, k, Work)
    ensures var r := s.workers[k].rec;
            && (Follows(r.state, to) ==> Can(lim, s, k, Advance(k, to, ok), r.(state := to), Work))
            && (r.state.Rank() <= 5 && !s.cancelled ==> Can(lim, s, k, Fail(k), r, Cleanup(0, false)))
            && (r.state.Rank() <= 5 && s.cancelled ==> Can(lim, s, k, Stop(k), r, Exiting))
            && (r.state == JobDone || r.state == Deleting ==>
                  Can(lim, s, k, Release(k, ok), r.(state := Deleting), Cleanup(0, true)))
  {
  }

  lemma EnterMoves(lim: Limits, s: Sys, k: Key, ok: bool)
    requires At(s, k, Dispatch) && s.workers[k].rec.state.Rank() <= 1
    ensures Can(lim, s, k, Enter(k, ok), EnterCreating(s, k, s.workers[k].rec), if ok then Send else Erred(true))
  {
  }

  lemma DispatchMoves(lim: Limits, s: Sys, k: Key, ok: bool)
    requires Inv(lim, s) && At(s, k, Dispatch)
    ensures var r := s.workers[k].rec;
            && !r.state.Terminal()
            && (r.state == Creating ==> EnterCreating(s, k, r) == r)
            && (r.state.Rank() <= 1 ==>
                  Can(lim, s, k, Enter(k, ok), EnterCreating(s, k, r), if ok then Send else Erred(true)))
            && (r.state.Rank() >= 2 ==> Can(lim, s, k, Begin(k), r, Work))
  {
    hide SoundStore, Staffed, Inv;
    assert Employed(s, k);
    InvParts(lim, s);
    WorkerFacts(lim, s, k);
    if s.workers[k].rec.state.Rank() <= 1 {
      hide Can;
      EnterMoves(lim, s, k, ok);
    }
  }

  lemma GotVmMoves(lim: Limits, s: Sys, k: Key, ok: bool)
    requires k in s.workers && s.workers[k].pc.GotVm?
    ensures Can(lim, s, k, RecordVm(k, ok), s.workers[k].rec.(vm := Some(s.workers[k].pc.vm), state := WaitReady), Work)
  {
  }

  lemma HoldsVm(lim: Limits, s: Sys, k: Key)
    requires Inv(lim, s) && At(s, k, Work)
    ensures s.workers[k].rec.state.HasMachine() && s.workers[k].rec.vm.Some?
    ensures s.workers[k].rec.state.Rank() <= 5 || PastJob(s.workers[k].rec.state)
  {
    assert Employed(s, k);
    assert Standing(s, k, s.workers[k]);
    assert Sound(lim, s, k, s.workers[k].rec);
  }

  lemma AbortMoves(lim: Limits, s: Sys, k: Key)
    requires k in s.workers && s.workers[k].pc.Erred? && s.cancelled
    ensures Can(lim, s, k, Abort(k), s.workers[k].rec, Exiting)
  {
  }

  lemma SettleMoves(lim: Limits, s: Sys, k: Key, ok: bool)
    requires k in s.workers && s.workers[k].pc.Erred?
    requires !s.workers[k].pc.retryable || lim.maxRetries <= s.workers[k].rec.retry
    ensures Can(lim, s, k, Settle(k, ok), s.workers[k].rec.(state := Failed), Exiting)
  {
  }

  lemma RetryMoves(lim: Limits, s: Sys, k: Key, ok: bool)
    requires k in s.workers && s.workers[k].pc == Erred(true) && s.workers[k].rec.retry < lim.maxRetries
    ensures Can(lim, s, k, Moot(k, ok), s.workers[k].rec.(state := Complete), Exiting)
    ensures Can(lim, s, k, Protocol.Retry(k, ok), Retried(s.workers[k].rec), Pace)
  {
  }

  lemma ErredMoves(lim: Limits, s: Sys, k: Key, ok: bool)
    requires k in s.workers && s.workers[k].pc.Erred?
    ensures var Worker(r, Erred(retryable)) := s.workers[k];
            && (s.cancelled ==> Can(lim, s, k, Abort(k), r, Exiting))
            && (!retryable || lim.maxRetries <= r.retry ==> Can(lim, s, k, Settle(k, ok), r.(state := Failed), Exiting))
            && (retryable && r.retry < lim.maxRetries ==>
                  && Can(lim, s, k, Moot(k, ok), r.(state := Complete), Exiting)
                  && Can(lim, s, k, Protocol.Retry(k, ok), Retried(r), Pace))
  {
    hide Can;
    var Worker(r, Erred(retryable)) := s.workers[k];
    if s.cancelled {
      AbortMoves(lim, s, k);
    }
    if !retryable || lim.maxRetries <= r.retry {
      SettleMoves(lim, s, k, ok);
    } else {
      RetryMoves(lim, s, k, ok);
    }
  }

  lemma PaceMoves(lim: Limits, s: Sys, k: Key)
    requires At(s, k, Pace)
    ensures Can(lim, s, k, Again(k), s.workers[k].rec, Dispatch)
    ensures s.cancelled ==> Can(lim, s, k, Abort(k), s.workers[k].rec, Exiting)
  {
  }

  lemma StopsAt(lim: Limits, s: Sys, k: Key)
    requires Enabled(lim, s, Stop(k))
    ensures Apply(lim, s, Stop(k)) == Goto(s, k, Exiting)
  {
  }

  lemma CleanupMoves(lim: Limits, s: Sys, k: Key, acted: bool, ok: bool)
    requires k in s.workers && s.workers[k].pc.Cleanup? && s.workers[k].rec.vm.Some? && (ok ==> acted)
    ensures var Worker(r, Cleanup(tries, final)) := s.workers[k];
            var over := if final then Freed else Erred(true);
            Can(lim, s, k, TryDelete(k, acted, ok), r, if ok || tries >= 2 then over else Cleanup(tries + 1, final))
  {
  }

  lemma FreedMoves(lim: Limits, s: Sys, k: Key, ok: bool)
    requires At(s, k, Freed)
    ensures Can(lim, s, k, Finish(k, ok), s.workers[k].rec.(state := Complete), Exiting)
  {
  }

  lemma SaveMoves(lim: Limits, s: Sys, k: Key, ok: bool)
    requires At(s, k, Work) && s.workers[k].rec.state == Bootstrapping
    ensures Can(lim, s, k, Save(k, ok), s.workers[k].rec, Work)
  {
  }

  lemma BackoffMoves(lim: Limits, s: Sys, k: Key)
    requires At(s, k, Backoff)
    ensures var r := s.workers[k].rec;
            && Can(lim, s, k, Resend(k), r, Send)
            && Can(lim, s, k, GiveUp(k), r, Erred(false))
            && (forall ok :: Can(lim, s, k, Vanish(k, ok), r.(state := Complete), Exiting))
  {
  }

  /** The protocol's guarantee is the code's: wherever a worker stands, the server has made at
      most one VM per try, and no recorded VM has been lost. */
  lemma WorkerSafety(w: JobWorker, v: VmId, v': VmId)
    requires w.Linked()
    ensures v in w.g.made && v' in w.g.made && SameTry(w.g.made[v], w.g.made[v']) ==> v == v'
    ensures v in w.g.durable && v in w.g.live && v !in w.g.gaveUp ==>
              v in w.g.made && HeldBy(w.g.store.disk, w.g.made[v].job, v)
  {
    if v in w.g.made && v' in w.g.made && SameTry(w.g.made[v], w.g.made[v']) {
      Safety.AtMostOneVmPerTry(w.cfg.limits, w.trace, v, v');
    }
    Safety.NoDurableVmLost(w.cfg.limits, w.trace, v);
  }
}
