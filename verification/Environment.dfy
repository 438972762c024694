/** Everything around one worker: what the rest of the system does between two of its
    steps, and what the servers reply. Both are arbitrary scripts. */
module Environment {
  import opened Records
  import opened Protocol
  import opened InvariantSteps
  import opened Runs
  import opened Runners

  /** Whose worker or record an action concerns. */
  function Subject(a: Action): Option<Key> {
    match a
    case TakeListing => None
    case CollectOrphan(_) => None
    case Serve(_, _) => None
    case VmDies(_) => None
    case Shutdown => None
    case Crash => None
    case _ => Some(a.k)
  }

  predicate Foreign(a: Action, k: Key) {
    !a.Crash? && Subject(a) != Some(k)
  }

  /** The actions of `script` that others can perform in turn. */
  function Played(lim: Limits, s: Sys, k: Key, script: seq<Action>): seq<Action>
    decreases |script|
  {
    if script == [] then []
    else if Foreign(script[0], k) && Enabled(lim, s, script[0]) then
      [script[0]] + Played(lim, Apply(lim, s, script[0]), k, script[1..])
    else Played(lim, s, k, script[1..])
  }

  predicate Untouched(s: Sys, t: Sys, k: Key) {
    k in s.workers ==> k in t.workers && t.workers[k] == s.workers[k] && (s.cancelled ==> t.cancelled)
  }

  lemma ForeignWorker(lim: Limits, s: Sys, a: Action, k: Key)
    requires Foreign(a, k) && Enabled(lim, s, a)
    requires a.Enter? || a.Post? || a.FreshKey? || a.RecordVm? || a.TryDelete? || a.Retry?
    ensures Untouched(s, Apply(lim, s, a), k)
  {
  }

  lemma ForeignRecord(lim: Limits, s: Sys, a: Action, k: Key)
    requires Foreign(a, k) && Enabled(lim, s, a)
    requires a.SubmitNew? || a.Spawn? || a.Exit? || a.Close? || a.Prune?
    ensures Untouched(s, Apply(lim, s, a), k)
  {
  }

  lemma ForeignServe(lim: Limits, s: Sys, a: Action, k: Key)
    requires a.Serve? && Enabled(lim, s, a)
    ensures Untouched(s, Apply(lim, s, a), k)
  {
  }

  lemma ForeignAmbient(lim: Limits, s: Sys, a: Action, k: Key)
    requires Ambient(a) && Enabled(lim, s, a)
    ensures Untouched(s, Apply(lim, s, a), k)
  {
  }

  lemma ForeignSpecial(lim: Limits, s: Sys, a: Action, k: Key)
    requires Foreign(a, k) && Enabled(lim, s, a) && (Special(a) || Ambient(a))
    ensures Untouched(s, Apply(lim, s, a), k)
  {
    hide Enabled, Apply, Untouched;
    if a.Enter? || a.Post? || a.FreshKey? || a.RecordVm? || a.TryDelete? || a.Retry? {
      ForeignWorker(lim, s, a, k);
    } else if a.Serve? {
      ForeignServe(lim, s, a, k);
    } else if Ambient(a) {
      ForeignAmbient(lim, s, a, k);
    } else {
      ForeignRecord(lim, s, a, k);
    }
  }

  lemma ForeignQuiet(lim: Limits, s: Sys, a: Action, k: Key)
    requires Foreign(a, k) && Enabled(lim, s, a) && Quiet(a)
    ensures Untouched(s, Apply(lim, s, a), k)
  {
    QuietMoves(lim, s, a);
  }

  lemma ForeignClimb(lim: Limits, s: Sys, a: Action, k: Key)
    requires Foreign(a, k) && Enabled(lim, s, a) && Climbs(a)
    ensures Untouched(s, Apply(lim, s, a), k)
  {
    ClimbMoves(lim, s, a);
  }

  lemma ForeignStep(lim: Limits, s: Sys, a: Action, k: Key)
    requires Foreign(a, k) && Enabled(lim, s, a)
    ensures Untouched(s, Apply(lim, s, a), k)
  {
    hide Foreign, Enabled, Apply, Untouched, Quiet, Climbs, Ambient, Special;
    Kinds(a);
    if Quiet(a) {
      ForeignQuiet(lim, s, a, k);
    } else if Climbs(a) {
      ForeignClimb(lim, s, a, k);
    } else {
      ForeignSpecial(lim, s, a, k);
    }
  }

  /** Others never touch this worker, and a shutdown is for good. */
  lemma {:induction false} PlayedRun(lim: Limits, s: Sys, k: Key, script: seq<Action>)
    requires k in s.workers
    ensures var run := Played(lim, s, k, script);
            && Valid(lim, s, run)
            && k in After(lim, s, run).workers && After(lim, s, run).workers[k] == s.workers[k]
            && (s.cancelled ==> After(lim, s, run).cancelled)
    ensures forall a :: a in Played(lim, s, k, script) ==> Foreign(a, k)
    decreases |script|
  {
    hide Enabled, Apply, Foreign;
    if script != [] {
      if Foreign(script[0], k) && Enabled(lim, s, script[0]) {
        var t := Apply(lim, s, script[0]);
        ForeignStep(lim, s, script[0], k);
        PlayedRun(lim, t, k, script[1..]);
        Prepend(lim, s, script[0], Played(lim, t, k, script[1..]));
      } else {
        PlayedRun(lim, s, k, script[1..]);
      }
    }
  }

  // ---------------------------------------------------------------- replies

  /** What becomes of a create request. */
  datatype Net = Unsent | Answered | TooMany(retryAfter: int) | Lost

  datatype VmReply = NoVm | VmUnknown | Vm(status: string, username: string, websocket: string)

  datatype ExecReply = NoHost | ExecFailed | Executed(code: int, stdout: string)

  datatype JobReply = JobUnknown | Job(status: string, runnerName: string, runnerId: int)

  datatype Event = InProgress(runnerName: string) | JobCompleted

  /** All replies a worker could get at one moment, and what others do meanwhile. */
  datatype Fate = Fate(
    others: seq<Action>,
    stored: bool,                   // the next Upsert reaches the disk
    timerWins: bool,                // of a timer and a cancellation that are both due
    net: Net,
    vm: VmReply,
    exec: ExecReply,
    job: JobReply,
    runners: seq<Runner>,           // GitHub's registrations
    pagesLost: set<nat>,
    deleteActs: bool,               // the server performs the DELETE
    deleteReplies: bool,            // and its reply arrives
    urlKnown: bool,
    jit: Option<int>,               // generate-jitconfig: the runner ID
    nonce: string,
    events: seq<Event>)

  /** The replies of all turns. */
  datatype Oracle = Oracle(script: nat -> Fate)
  {
    function At(turn: nat): Fate {
      script(turn)
    }
  }
}
