/** Runner registrations: the paginated listing, the busy check built on it, and the
    clean-up that decides from a runner's name whether its VM still lives. */
module Runners {
  import opened Records
  import opened Text

  datatype Runner = Runner(id: int, name: string, status: string, busy: bool)
  {
    /** Not verifiably online and not running a job. */
    predicate Reapable() {
      status != "online" && !busy
    }
  }

  datatype Listing = Full(runners: seq<Runner>) | Unknown

  const PAGE_SIZE := 100
  const PAGE_CAP := 20

  /** Page `page` (from 1) of the server's list. */
  function Page(server: seq<Runner>, page: nat): seq<Runner>
    requires page >= 1
  {
    var lo := if PAGE_SIZE * (page - 1) <= |server| then PAGE_SIZE * (page - 1) else |server|;
    var hi := if PAGE_SIZE * page <= |server| then PAGE_SIZE * page else |server|;
    server[lo..hi]
  }

  /** The number of pages a full listing takes. */
  function LastPage(server: seq<Runner>): nat {
    |server| / PAGE_SIZE + 1
  }

  /** All or nothing: the whole list in order when it is short enough and every page it takes
      arrives, an error otherwise; never a truncated list. */
  method ListRunners(server: seq<Runner>, fails: set<nat>) returns (r: Listing)
    ensures r.Full? <==> |server| < PAGE_SIZE * PAGE_CAP && forall p: nat :: 1 <= p <= LastPage(server) ==> p !in fails
    ensures r.Full? ==> r.runners == server
  {
    var all := [];
    var page := 1;
    while page <= PAGE_CAP
      invariant 1 <= page <= PAGE_CAP + 1
      invariant PAGE_SIZE * (page - 1) <= |server| && all == server[..PAGE_SIZE * (page - 1)]
      invariant forall p: nat :: 1 <= p < page ==> p !in fails
    {
      if page in fails {
        return Unknown;
      }
      var out := Page(server, page);
      all := all + out;
      if |out| < PAGE_SIZE {
        assert all == server;
        return Full(all);
      }
      page := page + 1;
    }
    return Unknown;
  }

  /** The server says runner `id` is executing a job. */
  predicate BusyOn(server: seq<Runner>, id: int) {
    exists i :: 0 <= i < |server| && server[i].id == id && server[i].busy
  }

  predicate UniqueIds(server: seq<Runner>) {
    forall i, j :: 0 <= i < j < |server| ==> server[i].id != server[j].id
  }

  /** The verdict on `id` that a full listing gives: a vanished registration counts as idle. */
  predicate FirstBusy(runners: seq<Runner>, id: int) {
    runners != [] && if runners[0].id == id then runners[0].busy else FirstBusy(runners[1..], id)
  }

  /** Unknown counts as busy. */
  method RunnerBusy(listing: Listing, id: int) returns (busy: bool)
    ensures busy <==> listing.Unknown? || FirstBusy(listing.runners, id)
  {
    if listing.Unknown? {
      return true;
    }
    var runners := listing.runners;
    for n := 0 to |runners|
      invariant FirstBusy(runners, id) <==> FirstBusy(runners[n..], id)
    {
      if runners[n].id == id {
        return runners[n].busy;
      }
    }
    return false;
  }

  /** As runner IDs are unique, that is what the server says. */
  lemma {:induction false} FirstBusyIff(runners: seq<Runner>, id: int)
    requires UniqueIds(runners)
    ensures FirstBusy(runners, id) <==> BusyOn(runners, id)
  {
    if runners != [] {
      FirstBusyIff(runners[1..], id);
      assert BusyOn(runners[1..], id) ==> exists i :: 0 <= i < |runners| - 1 && runners[1..][i] == runners[i + 1] && runners[i + 1].id == id && runners[i + 1].busy;
      if BusyOn(runners, id) {
        var i :| 0 <= i < |runners| && runners[i].id == id && runners[i].busy;
        assert i > 0 ==> runners[1..][i - 1] == runners[i];
      }
    }
  }

  // ---------------------------------------------------------------- names

  /** The name under which bootstrapRunner registers the runner of VM `id`. */
  function RunnerName(prefix: string, id: VmId, jobId: nat, nonce: string): string {
    prefix + "-" + Short(id) + "-j" + Itoa(jobId) + "-" + nonce
  }

  function Short(id: VmId): string {
    if |id| > 8 then id[..8] else id
  }

  /** Some live VM's ID starts with `short`. */
  predicate AliveAs(live: set<VmId>, short: string) {
    exists id :: id in live && HasPrefix(id, short)
  }

  /** cleanRunners removes this registration. */
  predicate Stale(r: Runner, prefix: string, live: set<VmId>) {
    && HasPrefix(r.name, prefix + "-")
    && r.Reapable()
    && match Cut(r.name[|prefix| + 1..], "-j")
       case None => false
       case Some((short, _)) => !AliveAs(live, short)
  }

  /** The registrations of `runners` that cleanRunners asks GitHub to remove, in order. */
  function StaleOnes(runners: seq<Runner>, prefix: string, live: set<VmId>): seq<Runner> {
    if runners == [] then []
    else
      var front := StaleOnes(runners[..|runners| - 1], prefix, live);
      var last := runners[|runners| - 1];
      if Stale(last, prefix, live) then front + [last] else front
  }

  method CleanRunners(runners: seq<Runner>, namePrefix: string, live: set<VmId>) returns (removed: seq<Runner>)
    ensures removed == StaleOnes(runners, namePrefix, live)
  {
    removed := [];
    var prefix := namePrefix + "-";
    for n := 0 to |runners|
      invariant removed == StaleOnes(runners[..n], namePrefix, live)
    {
      var rn := runners[n];
      assert runners[..n + 1][..n] == runners[..n];
      if HasPrefix(rn.name, prefix) && rn.Reapable() {
        var cut := Cut(rn.name[|prefix|..], "-j");
        if cut.Some? {
          var alive := SomeLive(live, cut.value.0);
          if !alive {
            removed := removed + [rn];
          }
        }
      }
    }
    assert runners[..|runners|] == runners;
  }

  method SomeLive(live: set<VmId>, short: string) returns (alive: bool)
    ensures alive <==> AliveAs(live, short)
  {
    alive := false;
    var todo := live;
    while todo != {}
      invariant todo <= live
      invariant forall id :: id in live - todo ==> !HasPrefix(id, short)
      decreases |todo|
    {
      var id :| id in todo;
      if HasPrefix(id, short) {
        return true;
      }
      todo := todo - {id};
    }
  }

  /** What the first "-j" of a name leaves of the VM's short ID. */
  function CutShort(short: string): string {
    match Find(short + "-j", "-j", 0)
    case Some(n) => if n <= |short| then short[..n] else short
    case None => short
  }

  /** Even if the VM's ID itself contains "-j", the cut of its runner's name is a prefix of it. */
  lemma NameCut(short: string, rest: string)
    ensures Cut(short + "-j" + rest, "-j").Some?
    ensures Cut(short + "-j" + rest, "-j").value.0 == CutShort(short)
    ensures HasPrefix(short, CutShort(short))
  {
    var s := short + "-j";
    var t := s + rest;
    assert OccursAt(s, "-j", |short|);
    forall i: nat | i <= |short| ensures OccursAt(s, "-j", i) <==> OccursAt(t, "-j", i) {
      assert s[i..i + 2] == t[i..i + 2];
    }
    var n := Find(s, "-j", 0).value;
    assert n <= |short|;
    CutAt(t, "-j", n);
    assert t[..n] == short[..n];
  }

  lemma PrefixOfShort(id: VmId, short: string)
    requires HasPrefix(Short(id), short)
    ensures HasPrefix(id, short)
  {
    assert Short(id)[..|short|] == id[..|short|];
  }

  lemma NameParts(prefix: string, id: VmId, jobId: nat, nonce: string)
    ensures var name := RunnerName(prefix, id, jobId, nonce);
            HasPrefix(name, prefix + "-") && name[|prefix| + 1..] == Short(id) + "-j" + (Itoa(jobId) + "-" + nonce)
  {
    var name := RunnerName(prefix, id, jobId, nonce);
    var rest := Short(id) + "-j" + (Itoa(jobId) + "-" + nonce);
    assert name == (prefix + "-") + rest;
    assert name[..|prefix| + 1] == prefix + "-";
  }

  /** cleanRunners removes the registration of one of our VMs exactly when it is reapable and
      no listed VM shares the part of the ID in front of the first "-j". */
  lemma OwnRunnerStale(prefix: string, id: VmId, jobId: nat, nonce: string, r: Runner, live: set<VmId>)
    requires r.name == RunnerName(prefix, id, jobId, nonce)
    ensures Stale(r, prefix, live) <==> r.Reapable() && !AliveAs(live, CutShort(Short(id)))
  {
    NameParts(prefix, id, jobId, nonce);
    NameCut(Short(id), Itoa(jobId) + "-" + nonce);
  }

  /** Never that of a VM in the sweep's own listing, whatever prefix, ID, job or nonce. */
  lemma ListedVmKeepsRunner(prefix: string, id: VmId, jobId: nat, nonce: string, r: Runner, live: set<VmId>)
    requires r.name == RunnerName(prefix, id, jobId, nonce) && id in live
    ensures !Stale(r, prefix, live)
  {
    OwnRunnerStale(prefix, id, jobId, nonce, r, live);
    NameCut(Short(id), "");
    PrefixOfShort(id, CutShort(Short(id)));
  }

  lemma {:induction false} StaleOnesIff(runners: seq<Runner>, prefix: string, live: set<VmId>, r: Runner)
    ensures r in StaleOnes(runners, prefix, live) <==> r in runners && Stale(r, prefix, live)
  {
    if runners != [] {
      StaleOnesIff(runners[..|runners| - 1], prefix, live, r);
      assert runners == runners[..|runners| - 1] + [runners[|runners| - 1]];
    }
  }
}
