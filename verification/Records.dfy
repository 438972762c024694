/** The vocabulary every module shares: job keys, the ten states of a job's FSM,
    the idempotency keys of create requests and the per-job record. */
module Records {

  datatype Option<+T> = None | Some(value: T)

  /** Identifies one attempt of one workflow job. */
  datatype Key = Key(jobId: int, runAttempt: int)

  type VmId = string

  datatype JobState =
    | Queued | Creating | WaitReady | Bootstrapping | RunnerUp
    | JobRunning | JobDone | Deleting | Complete | Failed
  {
    predicate Terminal() {
      Complete? || Failed?
    }

    /** Position in the chain QUEUED -> ... -> COMPLETE; the two terminal states share the top. */
    function Rank(): nat {
      match this
      case Queued => 0
      case Creating => 1
      case WaitReady => 2
      case Bootstrapping => 3
      case RunnerUp => 4
      case JobRunning => 5
      case JobDone => 6
      case Deleting => 7
      case Complete => 8
      case Failed => 8
    }

    /** States in which a record carries the ID of a VM nobody has released yet. */
    predicate HasMachine() {
      2 <= Rank() <= 7
    }
  }

  /** An Idempotency-Key. `life` tells apart successive records of the same job
      (a pruned record may be submitted again); a real key shows only job, retry and nonce. */
  datatype IdemKey = IdemKey(job: Key, life: nat, retry: nat, nonce: nat)

  /** The part of a record that the FSM drives. */
  datatype Progress = Progress(
    life: nat,
    retry: nat,
    state: JobState,
    vm: Option<VmId>,
    idem: Option<IdemKey>)
  {
    /** The record counts for HasVM(id). */
    predicate Holds(id: VmId) {
      vm == Some(id) && !state.Terminal()
    }
  }

  /** Lexicographic order on (life, retry, rank); within a life nothing follows a terminal state. */
  predicate Before(a: Progress, b: Progress) {
    || a.life < b.life
    || (a.life == b.life && !a.state.Terminal() && a.retry < b.retry)
    || (a.life == b.life && a.retry == b.retry && a.state.Rank() < b.state.Rank())
  }

  /** `b` is `a` or a later version of it; two versions of equal rank differ only while
      CREATING, where a rejected idempotency key is replaced. */
  predicate NotAfter(a: Progress, b: Progress) {
    || Before(a, b)
    || a == b
    || (a.life == b.life && a.retry == b.retry && a.state == Creating && b.state == Creating)
  }

  lemma NotAfterTransitive(a: Progress, b: Progress, c: Progress)
    requires NotAfter(a, b) && NotAfter(b, c)
    ensures NotAfter(a, c)
  {
  }

  /** What a process has in memory and what its state file holds. Memory may run ahead. */
  datatype Image<V> = Image(mem: map<Key, V>, disk: map<Key, V>)
  {
    /** Memory is updated first; the whole file is rewritten from memory if persisting succeeds. */
    function Upsert(k: Key, v: V, ok: bool): Image<V> {
      var m := mem[k := v];
      Image(m, if ok then m else disk)
    }

    function Remove(k: Key, ok: bool): Image<V> {
      var m := mem - {k};
      Image(m, if ok then m else disk)
    }

    /** A restarted process knows only the file. */
    function Reopen(): Image<V> {
      Image(disk, disk)
    }
  }
}
