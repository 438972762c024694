/** The mini-control server's side of VM creation: idempotency keys, committed replies and
    rejections, and how its steps are the `Serve` steps of the protocol. */
module Server {
  import opened Records
  import opened Text
  import P = Protocol
  import Safety

  // ---------------------------------------------------------------- idempotency keys

  /** NewIdemKey. */
  function KeyText(jobId: nat, attempt: nat, retry: nat, nonce: string): string {
    "mcra1-j" + Itoa(jobId) + "-a" + Itoa(attempt) + "-r" + Itoa(retry) + "-" + nonce
  }

  lemma NumberThen(m: nat, n: nat, s: string, t: string)
    requires Itoa(m) + s == Itoa(n) + t
    requires s != "" && !IsDigit(s[0]) && t != "" && !IsDigit(t[0])
    ensures m == n && s == t
  {
    assert forall i :: 0 <= i < |Itoa(m)| ==> Itoa(m)[i] in Itoa(m);
    assert forall i :: 0 <= i < |Itoa(n)| ==> Itoa(n)[i] in Itoa(n);
    DigitsEnd(Itoa(m), Itoa(n), s, t);
    DecimalRoundTrip(m);
    DecimalRoundTrip(n);
  }

  lemma SamePrefix(p: string, s: string, t: string)
    ensures p + s == p + t ==> s == t
  {
    assert s == (p + s)[|p|..] && t == (p + t)[|p|..];
  }

  function RetryPart(r: nat, n: string): string {
    "-r" + (Itoa(r) + ("-" + n))
  }

  function AttemptPart(a: nat, r: nat, n: string): string {
    "-a" + (Itoa(a) + RetryPart(r, n))
  }

  lemma SameRetry(r: nat, n: string, r': nat, n': string)
    requires RetryPart(r, n) == RetryPart(r', n')
    ensures r == r' && n == n'
  {
    SamePrefix("-r", Itoa(r) + ("-" + n), Itoa(r') + ("-" + n'));
    NumberThen(r, r', "-" + n, "-" + n');
    SamePrefix("-", n, n');
  }

  lemma SameAttempt(a: nat, r: nat, n: string, a': nat, r': nat, n': string)
    requires AttemptPart(a, r, n) == AttemptPart(a', r', n')
    ensures a == a' && r == r' && n == n'
  {
    SamePrefix("-a", Itoa(a) + RetryPart(r, n), Itoa(a') + RetryPart(r', n'));
    assert RetryPart(r, n)[0] == '-' && RetryPart(r', n')[0] == '-';
    hide RetryPart;
    NumberThen(a, a', RetryPart(r, n), RetryPart(r', n'));
    SameRetry(r, n, r', n');
  }

  lemma KeyParts(j: nat, a: nat, r: nat, n: string)
    ensures KeyText(j, a, r, n) == "mcra1-j" + (Itoa(j) + AttemptPart(a, r, n))
    ensures AttemptPart(a, r, n) != "" && AttemptPart(a, r, n)[0] == '-'
  {
    hide Itoa;
    var x, y, z := Itoa(j), Itoa(a), Itoa(r);
    assert "mcra1-j" + x + "-a" + y + "-r" + z + "-" + n == "mcra1-j" + (x + ("-a" + (y + ("-r" + (z + ("-" + n))))));
  }

  /** Keys of different jobs, attempts, retries or nonces are different texts. */
  lemma KeyTextInjective(j: nat, a: nat, r: nat, n: string, j': nat, a': nat, r': nat, n': string)
    requires KeyText(j, a, r, n) == KeyText(j', a', r', n')
    ensures j == j' && a == a' && r == r' && n == n'
  {
    KeyParts(j, a, r, n);
    KeyParts(j', a', r', n');
    hide KeyText, AttemptPart, Itoa;
    SamePrefix("mcra1-j", Itoa(j) + AttemptPart(a, r, n), Itoa(j') + AttemptPart(a', r', n'));
    NumberThen(j, j', AttemptPart(a, r, n), AttemptPart(a', r', n'));
    SameAttempt(a, r, n, a', r', n');
  }

  /** Whatever the 64-bit numbers, the key is within the 128 bytes the API allows. */
  lemma KeyFits(j: nat, a: nat, r: nat, nonce: string)
    requires j <= MAX_INT64 && a <= MAX_INT64 && r <= MAX_INT64 && |nonce| == 8
    ensures 1 <= |KeyText(j, a, r, nonce)| <= 128
  {
    Int64Length(j);
    Int64Length(a);
    Int64Length(r);
  }

  // ---------------------------------------------------------------- state and replies

  datatype Request = Request(sku: string, tag: string)

  datatype Reply =
    | Created(number: nat)                  // 201: the n-th VM ever created
    | Rejected(reason: string)              // 409 with a reason code
    | BadKey | BadBody | BadTag             // 400
    | Reused                                // 409 without a reason code
    | TooMany                               // 429

  /** A committed reply and the request body it answers. */
  datatype Stored = Stored(raw: string, reply: Reply)

  datatype Knobs = Knobs(rejectTag: bool, fleetTag: string, capacityReason: string)

  datatype Desk = Desk(vms: map<VmId, Request>, table: map<string, Stored>, nextId: nat, inject429: nat)

  const NO_WORKER := "no_workers_matching_tag"

  /** The ID of the n-th VM: three letters for its last three digits. */
  function Pad(n: nat): VmId {
    Named(n / 100 % 10, n / 10 % 10, n % 10)
  }

  function Letter(d: nat): char
    requires d < 10
  {
    "abcdefghij"[d]
  }

  function Named(a: nat, b: nat, c: nat): VmId
    requires a < 10 && b < 10 && c < 10
  {
    "vm-" + [Letter(a), Letter(b), Letter(c)]
  }

  lemma LetterInjective(c: nat, d: nat)
    requires c < 10 && d < 10 && Letter(c) == Letter(d)
    ensures c == d
  {
  }

  lemma NamedInjective(a: nat, b: nat, c: nat, a': nat, b': nat, c': nat)
    requires a < 10 && b < 10 && c < 10 && a' < 10 && b' < 10 && c' < 10
    requires Named(a, b, c) == Named(a', b', c')
    ensures a == a' && b == b' && c == c'
  {
    hide Letter;
    var x, y := Named(a, b, c), Named(a', b', c');
    assert x[3] == y[3] && x[4] == y[4] && x[5] == y[5];
    LetterInjective(a, a');
    LetterInjective(b, b');
    LetterInjective(c, c');
  }

  lemma Split(base: nat, q: nat, r: nat)
    requires (base == 10 || base == 100 || base == 1000) && r < base
    ensures (base * q + r) / base == q && (base * q + r) % base == r
  {
  }

  lemma DigitsOf(q: nat, a: nat, b: nat, c: nat)
    requires a < 10 && b < 10 && c < 10
    ensures var n := 1000 * q + 100 * a + 10 * b + c;
            n % 1000 == 100 * a + 10 * b + c && n / 100 % 10 == a && n / 10 % 10 == b && n % 10 == c
  {
    Split(1000, q, 100 * a + 10 * b + c);
    Split(100, 10 * q + a, 10 * b + c);
    Split(10, q, a);
    Split(10, 100 * q + 10 * a + b, c);
    Split(10, 10 * q + a, b);
  }

  lemma LastDigits(n: nat)
    ensures n % 1000 == 100 * (n / 100 % 10) + 10 * (n / 10 % 10) + n % 10
  {
    var r := n % 1000;
    var s := r % 100;
    assert r / 100 < 10 && s / 10 < 10;
    DigitsOf(n / 1000, r / 100, s / 10, s % 10);
  }

  lemma SameDigits(m: nat, n: nat)
    requires m % 1000 == n % 1000
    ensures m / 100 % 10 == n / 100 % 10 && m / 10 % 10 == n / 10 % 10 && m % 10 == n % 10
  {
    LastDigits(m);
    LastDigits(n);
  }

  /** IDs repeat after exactly a thousand VMs. */
  lemma PadRepeats(m: nat, n: nat)
    ensures Pad(m) == Pad(n) <==> m % 1000 == n % 1000
  {
    hide Named;
    if m % 1000 == n % 1000 {
      SameDigits(m, n);
    } else if Pad(m) == Pad(n) {
      NamedInjective(m / 100 % 10, m / 10 % 10, m % 10, n / 100 % 10, n / 10 % 10, n % 10);
      LastDigits(m);
      LastDigits(n);
    }
  }

  predicate Committed(reply: Reply) {
    reply.Created? || reply.Rejected?
  }

  /** The server answers this create for the first time. */
  function Decide(d: Desk, knobs: Knobs, req: Request): Reply {
    if knobs.capacityReason != "" then Rejected(knobs.capacityReason)
    else if req.tag != "" && Lower(req.tag) != Lower(knobs.fleetTag) then Rejected(NO_WORKER)
    else Created(d.nextId + 1)
  }

  function Commit(d: Desk, idem: string, raw: string, req: Request, reply: Reply): Desk
    requires Committed(reply)
  {
    var e := d.(table := d.table[idem := Stored(raw, reply)]);
    if reply.Created? then e.(vms := d.vms[Pad(reply.number) := req], nextId := reply.number) else e
  }

  /** POST /vms. `req`: the decoded body, if it decodes. */
  function Handle(d: Desk, knobs: Knobs, idem: string, raw: string, req: Option<Request>): (Desk, Reply) {
    if idem == "" || |idem| > 128 then (d, BadKey)
    else if req.None? then (d, BadBody)
    else if knobs.rejectTag && req.value.tag != "" then (d, BadTag)
    else if idem in d.table then (d, if d.table[idem].raw == raw then d.table[idem].reply else Reused)
    else if d.inject429 > 0 then (d.(inject429 := d.inject429 - 1), TooMany)
    else
      var reply := Decide(d, knobs, req.value);
      (Commit(d, idem, raw, req.value, reply), reply)
  }

  class MiniControl {
    var vms: map<VmId, Request>
    var idempotency: map<string, Stored>
    var nextId: nat
    var inject429: nat
    var knobs: Knobs

    ghost function Abstract(): Desk
      reads this
    {
      Desk(vms, idempotency, nextId, inject429)
    }

    constructor (knobs: Knobs)
      ensures Abstract() == Desk(map[], map[], 0, 0) && this.knobs == knobs
    {
      vms, idempotency, nextId, inject429, this.knobs := map[], map[], 0, 0, knobs;
    }

    method HandleCreate(idem: string, raw: string, req: Option<Request>) returns (reply: Reply)
      modifies `vms, `idempotency, `nextId, `inject429
      ensures (Abstract(), reply) == Handle(old(Abstract()), knobs, idem, raw, req)
    {
      if idem == "" || |idem| > 128 {
        return BadKey;
      }
      if req.None? {
        return BadBody;
      }
      var r := req.value;
      if knobs.rejectTag && r.tag != "" {
        return BadTag;
      }
      if idem in idempotency {
        var stored := idempotency[idem];
        if stored.raw != raw {
          return Reused;
        }
        return stored.reply;
      }
      if inject429 > 0 {
        inject429 := inject429 - 1;
        return TooMany;
      }
      if knobs.capacityReason != "" {
        reply := Rejected(knobs.capacityReason);
        idempotency := idempotency[idem := Stored(raw, reply)];
        return;
      }
      if r.tag != "" && Lower(r.tag) != Lower(knobs.fleetTag) {
        reply := Rejected(NO_WORKER);
        idempotency := idempotency[idem := Stored(raw, reply)];
        return;
      }
      nextId := nextId + 1;
      vms := vms[Pad(nextId) := r];
      reply := Created(nextId);
      idempotency := idempotency[idem := Stored(raw, reply)];
    }

    /** DELETE /vms/{id}: 204 or 404, and in either case the VM is gone. */
    method HandleDelete(id: VmId) returns (found: bool)
      modifies `vms
      ensures found <==> id in old(vms)
      ensures vms == old(vms) - {id}
    {
      found := id in vms;
      vms := vms - {id};
    }
  }

  // ---------------------------------------------------------------- whole histories

  datatype Event =
    | Create(knobs: Knobs, idem: string, raw: string, req: Option<Request>)
    | Delete(id: VmId)
    | Inject(n: nat)

  function Next(d: Desk, e: Event): Desk {
    match e
    case Create(knobs, idem, raw, req) => Handle(d, knobs, idem, raw, req).0
    case Delete(id) => d.(vms := d.vms - {id})
    case Inject(n) => d.(inject429 := n)
  }

  function Play(d: Desk, events: seq<Event>): Desk
    decreases |events|
  {
    if events == [] then d else Play(Next(d, events[0]), events[1..])
  }

  /** A committed reply stays for ever, through deletes, capacity changes and rate limits. */
  lemma {:induction false} CommittedForEver(d: Desk, events: seq<Event>, idem: string)
    requires idem in d.table
    ensures idem in Play(d, events).table && Play(d, events).table[idem] == d.table[idem]
    decreases |events|
  {
    if events != [] {
      CommittedForEver(Next(d, events[0]), events[1..], idem);
    }
  }

  /** The reply of a create that went through or was refused for capacity is replayed to every
      later create with the same key and body, which changes nothing; rejections included. */
  lemma Replays(d: Desk, knobs: Knobs, idem: string, raw: string, req: Request, events: seq<Event>, later: Knobs)
    requires Committed(Handle(d, knobs, idem, raw, Some(req)).1)
    requires !(later.rejectTag && req.tag != "")
    ensures var reply := Handle(d, knobs, idem, raw, Some(req)).1;
            var e := Play(Handle(d, knobs, idem, raw, Some(req)).0, events);
            Handle(e, later, idem, raw, Some(req)) == (e, reply)
  {
    hide Pad;
    CommittedForEver(Handle(d, knobs, idem, raw, Some(req)).0, events, idem);
  }

  /** Nothing but a commit enters the table: after a 429 or a 400 the key is as good as new. */
  lemma OnlyCommitsCount(d: Desk, knobs: Knobs, idem: string, raw: string, req: Option<Request>)
    ensures var (e, reply) := Handle(d, knobs, idem, raw, req);
            && (e.table != d.table ==> idem !in d.table && e.table == d.table[idem := Stored(raw, reply)] && Committed(reply))
            && (idem !in d.table && Committed(reply) ==> idem in e.table)
            && (e.nextId != d.nextId <==> idem !in d.table && reply.Created?)
  {
  }

  function CreatedKeys(d: Desk): set<string> {
    set i | i in d.table && d.table[i].reply.Created?
  }

  /** Creation numbers and keys with a created VM are in one-to-one correspondence. */
  ghost predicate Numbered(d: Desk) {
    && |CreatedKeys(d)| == d.nextId
    && (forall i :: i in CreatedKeys(d) ==> 1 <= d.table[i].reply.number <= d.nextId)
    && (forall i, j :: i in CreatedKeys(d) && j in CreatedKeys(d) && d.table[i].reply.number == d.table[j].reply.number ==> i == j)
  }

  ghost predicate MadeFor(d: Desk, i: string, v: VmId) {
    i in d.table && d.table[i].reply.Created? && Pad(d.table[i].reply.number) == v
  }

  /** Every VM was created under some key. */
  ghost predicate Backed(d: Desk) {
    forall v :: v in d.vms ==> exists i :: MadeFor(d, i, v)
  }

  ghost predicate Counted(d: Desk) {
    Numbered(d) && Backed(d)
  }

  lemma RejectCounted(d: Desk, idem: string, raw: string, req: Request, reply: Reply)
    requires Counted(d) && idem !in d.table && reply.Rejected?
    ensures Counted(Commit(d, idem, raw, req, reply))
  {
    hide Pad;
    var e := Commit(d, idem, raw, req, reply);
    assert CreatedKeys(e) == CreatedKeys(d);
    assert forall i, v :: MadeFor(d, i, v) ==> MadeFor(e, i, v);
  }

  lemma CreateNumbered(d: Desk, idem: string, raw: string, req: Request)
    requires Numbered(d) && idem !in d.table
    ensures Numbered(Commit(d, idem, raw, req, Created(d.nextId + 1)))
  {
    hide Pad;
    var e := Commit(d, idem, raw, req, Created(d.nextId + 1));
    assert CreatedKeys(e) == CreatedKeys(d) + {idem};
  }

  lemma CreateBacked(d: Desk, idem: string, raw: string, req: Request)
    requires Backed(d) && idem !in d.table
    ensures Backed(Commit(d, idem, raw, req, Created(d.nextId + 1)))
  {
    hide Pad;
    var e := Commit(d, idem, raw, req, Created(d.nextId + 1));
    assert MadeFor(e, idem, Pad(d.nextId + 1));
    assert forall i, v :: MadeFor(d, i, v) ==> MadeFor(e, i, v);
  }

  lemma CommitCounted(d: Desk, idem: string, raw: string, req: Request, reply: Reply)
    requires Counted(d) && idem !in d.table && Committed(reply) && (reply.Created? ==> reply.number == d.nextId + 1)
    ensures Counted(Commit(d, idem, raw, req, reply))
  {
    hide Commit, Numbered, Backed;
    if reply.Created? {
      CreateNumbered(d, idem, raw, req);
      CreateBacked(d, idem, raw, req);
    } else {
      RejectCounted(d, idem, raw, req, reply);
    }
  }

  lemma FewerVms(d: Desk, e: Desk)
    requires Counted(d) && e.table == d.table && e.nextId == d.nextId && e.vms.Keys <= d.vms.Keys
    ensures Counted(e)
  {
    hide Pad;
    assert CreatedKeys(e) == CreatedKeys(d);
    assert forall i, v :: MadeFor(d, i, v) ==> MadeFor(e, i, v);
  }

  lemma NextCounted(d: Desk, e: Event)
    requires Counted(d)
    ensures Counted(Next(d, e))
  {
    hide Pad, Counted;
    if e.Create? && Handle(d, e.knobs, e.idem, e.raw, e.req).0.table != d.table {
      CommitCounted(d, e.idem, e.raw, e.req.value, Handle(d, e.knobs, e.idem, e.raw, e.req).1);
    } else {
      FewerVms(d, Next(d, e));
    }
  }

  lemma {:induction false} PlayCounted(d: Desk, events: seq<Event>)
    requires Counted(d)
    ensures Counted(Play(d, events))
    decreases |events|
  {
    hide Next, Counted;
    if events != [] {
      NextCounted(d, events[0]);
      PlayCounted(Next(d, events[0]), events[1..]);
    }
  }

  const EMPTY := Desk(map[], map[], 0, 0)

  /** Over every history: as many VMs were created as there are keys with a created reply,
      no key created two, and while fewer than a thousand were created no two share an ID. */
  lemma OneVmPerKey(events: seq<Event>, i: string, j: string)
    ensures var d := Play(EMPTY, events);
            && |CreatedKeys(d)| == d.nextId
            && (i in CreatedKeys(d) && j in CreatedKeys(d) && i != j ==>
                  && d.table[i].reply.number != d.table[j].reply.number
                  && (d.nextId < 1000 ==> Pad(d.table[i].reply.number) != Pad(d.table[j].reply.number)))
  {
    hide Pad;
    assert CreatedKeys(EMPTY) == {};
    PlayCounted(EMPTY, events);
    var d := Play(EMPTY, events);
    if i in CreatedKeys(d) && j in CreatedKeys(d) {
      PadRepeats(d.table[i].reply.number, d.table[j].reply.number);
    }
  }

  // ---------------------------------------------------------------- the protocol's server

  function AnswerOf(reply: Reply): P.Answer
    requires Committed(reply)
  {
    if reply.Created? then P.Created(Pad(reply.number)) else P.Rejected
  }

  /** No two requests have the same name. */
  ghost predicate Distinct(s: P.Sys, name: IdemKey -> string) {
    forall i, j :: i in s.sent && j in s.sent && name(i) == name(j) ==> i == j
  }

  ghost predicate Mirrors(d: Desk, s: P.Sys, name: IdemKey -> string) {
    Agrees(d, s, name) && Distinct(s, name)
  }

  /** The server's table holds exactly the protocol's answers, each under its key's name. */
  ghost predicate Agrees(d: Desk, s: P.Sys, name: IdemKey -> string) {
    && Counted(d)
    && (forall i :: i in d.table ==> Committed(d.table[i].reply))
    && (forall i :: i in s.answers ==> i in s.sent)
    && (forall i :: i in s.sent ==> (i in s.answers <==> name(i) in d.table))
    && (forall i :: i in s.sent && name(i) in d.table ==> s.answers[i] == AnswerOf(d.table[name(i)].reply))
    && (forall v :: v in s.made ==> exists n: nat :: 1 <= n <= d.nextId && Pad(n) == v)
  }

  lemma FreshName(d: Desk, s: P.Sys, name: IdemKey -> string)
    requires Mirrors(d, s, name) && d.nextId + 1 < 1000
    ensures Pad(d.nextId + 1) !in s.made
  {
    hide Pad, Counted;
    if Pad(d.nextId + 1) in s.made {
      var n: nat :| 1 <= n <= d.nextId && Pad(n) == Pad(d.nextId + 1);
      PadRepeats(n, d.nextId + 1);
    }
  }

  lemma HandleServes(lim: P.Limits, d: Desk, s: P.Sys, name: IdemKey -> string, i: IdemKey,
                      knobs: Knobs, raw: string, req: Option<Request>)
    requires Mirrors(d, s, name) && i in s.sent && d.nextId + 1 < 1000
    ensures var (e, reply) := Handle(d, knobs, name(i), raw, req);
            if i !in s.answers && Committed(reply) then
              P.Enabled(lim, s, P.Serve(i, AnswerOf(reply))) && Mirrors(e, P.Apply(lim, s, P.Serve(i, AnswerOf(reply))), name)
            else Mirrors(e, s, name) && (Committed(reply) ==> i in s.answers && AnswerOf(reply) == s.answers[i])
  {
    hide Pad, Counted;
    var (e, reply) := Handle(d, knobs, name(i), raw, req);
    NextCounted(d, Create(knobs, name(i), raw, req));
    FreshName(d, s, name);
    if i !in s.answers && Committed(reply) {
      ServeMirrors(lim, d, s, name, i, raw, req.value, reply);
    }
  }

  lemma ServeMirrors(lim: P.Limits, d: Desk, s: P.Sys, name: IdemKey -> string, i: IdemKey,
                     raw: string, req: Request, reply: Reply)
    requires Mirrors(d, s, name) && i in s.sent && i !in s.answers && Committed(reply)
    requires reply.Created? ==> reply.number == d.nextId + 1 && Pad(reply.number) !in s.made
    ensures P.Enabled(lim, s, P.Serve(i, AnswerOf(reply)))
    ensures Mirrors(Commit(d, name(i), raw, req, reply), P.Apply(lim, s, P.Serve(i, AnswerOf(reply))), name)
  {
    hide Pad, Counted;
    CommitCounted(d, name(i), raw, req, reply);
    var e := Commit(d, name(i), raw, req, reply);
    var t := P.Apply(lim, s, P.Serve(i, AnswerOf(reply)));
    forall v | v in t.made ensures exists n: nat :: 1 <= n <= e.nextId && Pad(n) == v {
      if v in s.made {
        var n: nat :| 1 <= n <= d.nextId && Pad(n) == v;
        assert n <= e.nextId;
      } else {
        assert Pad(e.nextId) == v;
      }
    }
  }

  /** The text of a key; `word` writes the nonces. */
  function Written(i: IdemKey, word: nat -> string): string
    requires i.job.jobId >= 0 && i.job.runAttempt >= 0
  {
    KeyText(i.job.jobId, i.job.runAttempt, i.retry, word(i.nonce))
  }

  /** Job IDs and attempts are not negative, and ShortNonce has not drawn the same word twice. */
  ghost predicate Lawful(s: P.Sys, word: nat -> string) {
    && (forall i :: i in s.sent ==> i.job.jobId >= 0 && i.job.runAttempt >= 0)
    && (forall m: nat, n: nat :: m < s.nextNonce && n < s.nextNonce && word(m) == word(n) ==> m == n)
  }

  /** How the client writes its keys. */
  function Writer(word: nat -> string): IdemKey -> string {
    (i: IdemKey) => if i.job.jobId >= 0 && i.job.runAttempt >= 0 then Written(i, word) else ""
  }

  /** Requests of a run differ in their texts. */
  lemma TextsDiffer(lim: P.Limits, run: seq<P.Action>, word: nat -> string, i: IdemKey, j: IdemKey)
    requires P.Valid(lim, P.Initial(), run) && Lawful(P.After(lim, P.Initial(), run), word)
    requires i in P.After(lim, P.Initial(), run).sent && j in P.After(lim, P.Initial(), run).sent
    requires Written(i, word) == Written(j, word)
    ensures i == j
  {
    KeyTextInjective(i.job.jobId, i.job.runAttempt, i.retry, word(i.nonce), j.job.jobId, j.job.runAttempt, j.retry, word(j.nonce));
    Safety.NoncesNeverRepeat(lim, run, i, i);
    Safety.NoncesNeverRepeat(lim, run, j, j);
    assert i.nonce == j.nonce;
    Safety.NoncesNeverRepeat(lim, run, i, j);
  }

  /** Handling a create the network delivers is a `Serve` step of the protocol if the key is
      answered for the first time, and otherwise changes nothing the protocol knows; the
      reply to an answered key is the protocol's answer. */
  lemma HandleIsServe(lim: P.Limits, run: seq<P.Action>, d: Desk, word: nat -> string, i: IdemKey,
                      knobs: Knobs, raw: string, req: Option<Request>)
    requires P.Valid(lim, P.Initial(), run) && i in P.After(lim, P.Initial(), run).sent && d.nextId + 1 < 1000
    requires Lawful(P.After(lim, P.Initial(), run), word) && Agrees(d, P.After(lim, P.Initial(), run), Writer(word))
    ensures var s := P.After(lim, P.Initial(), run);
            var (e, reply) := Handle(d, knobs, Written(i, word), raw, req);
            if i !in s.answers && Committed(reply) then
              P.Enabled(lim, s, P.Serve(i, AnswerOf(reply))) && Agrees(e, P.Apply(lim, s, P.Serve(i, AnswerOf(reply))), Writer(word))
            else Agrees(e, s, Writer(word)) && (Committed(reply) ==> i in s.answers && AnswerOf(reply) == s.answers[i])
  {
    var s := P.After(lim, P.Initial(), run);
    forall a, b | a in s.sent && b in s.sent && Writer(word)(a) == Writer(word)(b) ensures a == b {
      TextsDiffer(lim, run, word, a, b);
    }
    hide P.Valid, P.After, P.Enabled, P.Apply, Handle, Agrees, Counted, Pad;
    HandleServes(lim, d, s, Writer(word), i, knobs, raw, req);
  }
}
