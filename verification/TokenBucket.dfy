/** The client-side token bucket for VM creation: a burst of 5, refilled at 2 per second.
    Time is in seconds, over the reals. */
module TokenBucket {
  import opened Records

  const BURST := 5.0
  const RATE := 2.0

  datatype Level = Level(tokens: real, last: real)
  {
    predicate Sane() {
      0.0 <= tokens <= BURST
    }
  }

  function Refilled(l: Level, now: real): real {
    var t := l.tokens + (now - l.last) * RATE;
    if t <= BURST then t else BURST
  }

  /** One critical section: refill, then take a token if there is one. */
  function Attempt(l: Level, now: real): (Level, bool) {
    var t := Refilled(l, now);
    if t >= 1.0 then (Level(t - 1.0, now), true) else (Level(t, now), false)
  }

  /** How long a caller that got no token sleeps. */
  function Wait(l: Level): real {
    (1.0 - l.tokens) / RATE
  }

  // ---------------------------------------------------------------- any sequence of callers

  /** Non-decreasing times, none before `from`. */
  predicate Ordered(from: real, ts: seq<real>)
    decreases |ts|
  {
    ts == [] || (from <= ts[0] && Ordered(ts[0], ts[1..]))
  }

  /** The bucket after attempts at times `ts`, by whichever callers. */
  function Run(l: Level, ts: seq<real>): Level
    decreases |ts|
  {
    if ts == [] then l else Run(Attempt(l, ts[0]).0, ts[1..])
  }

  function Grants(l: Level, ts: seq<real>): nat
    decreases |ts|
  {
    if ts == [] then 0
    else (if Attempt(l, ts[0]).1 then 1 else 0) + Grants(Attempt(l, ts[0]).0, ts[1..])
  }

  function End(from: real, ts: seq<real>): real {
    if ts == [] then from else ts[|ts| - 1]
  }

  /** Tokens are never created beyond the refill. */
  lemma {:induction false} Conservation(l: Level, ts: seq<real>)
    requires l.Sane() && Ordered(l.last, ts)
    ensures Run(l, ts).Sane() && Run(l, ts).last == End(l.last, ts) && l.last <= End(l.last, ts)
    ensures Grants(l, ts) as real + Run(l, ts).tokens <= l.tokens + RATE * (End(l.last, ts) - l.last)
    decreases |ts|
  {
    if ts != [] {
      Conservation(Attempt(l, ts[0]).0, ts[1..]);
    }
  }

  lemma {:induction false} OrderedParts(from: real, a: seq<real>, b: seq<real>)
    ensures Ordered(from, a + b) <==> Ordered(from, a) && Ordered(End(from, a), b)
    decreases |a|
  {
    if a == [] {
      assert a + b == b;
    } else {
      assert (a + b)[1..] == a[1..] + b;
      OrderedParts(a[0], a[1..], b);
    }
  }

  lemma {:induction false} RunParts(l: Level, a: seq<real>, b: seq<real>)
    ensures Run(l, a + b) == Run(Run(l, a), b)
    ensures Grants(l, a + b) == Grants(l, a) + Grants(Run(l, a), b)
    decreases |a|
  {
    if a == [] {
      assert a + b == b;
    } else {
      assert (a + b)[1..] == a[1..] + b;
      RunParts(Attempt(l, a[0]).0, a[1..], b);
    }
  }

  /** In every run of concurrent callers, the attempts falling into a window of `length`
      seconds are granted at most 5 + 2 * length tokens. */
  lemma RateBound(l: Level, before: seq<real>, window: seq<real>, length: real)
    requires l.Sane() && Ordered(l.last, before + window)
    requires window != [] && window[|window| - 1] - window[0] <= length
    ensures Grants(Run(l, before), window) as real <= BURST + RATE * length
    ensures Run(l, before + window).Sane()
  {
    OrderedParts(l.last, before, window);
    Conservation(l, before);
    Conservation(l, before + window);
    var m := Run(l, before);
    var (n, granted) := Attempt(m, window[0]);
    Conservation(n, window[1..]);
    assert End(window[0], window[1..]) == window[|window| - 1];
  }

  /** The bound is met: a full bucket grants five at once and not a sixth. */
  lemma BurstIsFive(now: real)
    ensures Grants(Level(BURST, now), [now, now, now, now, now]) == 5
    ensures !Attempt(Run(Level(BURST, now), [now, now, now, now, now]), now).1
  {
    var l1 := Attempt(Level(BURST, now), now).0;
    var l2 := Attempt(l1, now).0;
    var l3 := Attempt(l2, now).0;
    var l4 := Attempt(l3, now).0;
    Grants5(Level(BURST, now), l1, l2, l3, l4, now);
  }

  lemma Grants5(l0: Level, l1: Level, l2: Level, l3: Level, l4: Level, now: real)
    requires Attempt(l0, now) == (l1, true) && Attempt(l1, now) == (l2, true) && Attempt(l2, now) == (l3, true)
    requires Attempt(l3, now) == (l4, true) && Attempt(l4, now).1
    ensures Grants(l0, [now, now, now, now, now]) == 5
    ensures Run(l0, [now, now, now, now, now]) == Attempt(l4, now).0
  {
    hide Attempt;
    assert [now, now, now, now, now] == [now] + [now] + [now] + [now] + [now];
    RunParts(l0, [now] + [now] + [now] + [now], [now]);
    RunParts(l0, [now] + [now] + [now], [now]);
    RunParts(l0, [now] + [now], [now]);
    RunParts(l0, [now], [now]);
  }

  /** While nobody is granted a token the bucket fills linearly. */
  lemma {:induction false} UngrantedFill(l: Level, ts: seq<real>)
    requires l.Sane() && l.tokens < 1.0 && Ordered(l.last, ts) && Grants(l, ts) == 0
    ensures Run(l, ts) == Level(l.tokens + RATE * (End(l.last, ts) - l.last), End(l.last, ts))
    decreases |ts|
  {
    if ts != [] {
      UngrantedFill(Attempt(l, ts[0]).0, ts[1..]);
    }
  }

  /** A caller that slept the computed time succeeds unless a competitor was granted a token
      meanwhile. */
  lemma WaitSuffices(l: Level, rivals: seq<real>)
    requires l.Sane() && l.tokens < 1.0 && Ordered(l.last, rivals) && End(l.last, rivals) <= l.last + Wait(l)
    requires Grants(l, rivals) == 0
    ensures Attempt(Run(l, rivals), l.last + Wait(l)).1
  {
    UngrantedFill(l, rivals);
  }

  // ---------------------------------------------------------------- the code

  /** Times squeezed into an interval, so that any list serves as the attempts of others. */
  function Squeezed(from: real, to: real, ts: seq<real>): seq<real>
    decreases |ts|
  {
    if ts == [] then []
    else
      var t := if ts[0] < from then from else if ts[0] > to then to else ts[0];
      [t] + Squeezed(t, to, ts[1..])
  }

  lemma {:induction false} SqueezedOrdered(from: real, to: real, ts: seq<real>)
    requires from <= to
    ensures Ordered(from, Squeezed(from, to, ts)) && End(from, Squeezed(from, to, ts)) <= to
    decreases |ts|
  {
    if ts != [] {
      var t := Squeezed(from, to, ts)[0];
      SqueezedOrdered(t, to, ts[1..]);
      assert Squeezed(from, to, ts)[1..] == Squeezed(t, to, ts[1..]);
    }
  }

  class Bucket {
    var tokens: real
    var last: real

    ghost function Abstract(): Level
      reads this
    {
      Level(tokens, last)
    }

    constructor (now: real)
      ensures Abstract() == Level(BURST, now)
    {
      tokens, last := BURST, now;
    }

    method Take(now: real) returns (granted: bool, wait: real)
      modifies this
      ensures (Abstract(), granted) == Attempt(old(Abstract()), now)
      ensures wait == Wait(Abstract())
    {
      tokens := tokens + (now - last) * RATE;
      if tokens > BURST {
        tokens := BURST;
      }
      last := now;
      granted := tokens >= 1.0;
      if granted {
        tokens := tokens - 1.0;
      }
      wait := (1.0 - tokens) / RATE;
    }

    method Rivals(ts: seq<real>)
      modifies this
      ensures Abstract() == Run(old(Abstract()), ts)
    {
      for n := 0 to |ts|
        invariant Run(Abstract(), ts[n..]) == Run(old(Abstract()), ts)
      {
        assert ts[n..][1..] == ts[n + 1..];
        var _, _ := Take(ts[n]);
      }
    }

    /** The loop of one caller. `others[n]`: when others try while it sleeps for the n-th
        time; after that it is alone. `cancelAt`: when its context ends, if ever. */
    method WaitCreateToken(start: real, others: seq<seq<real>>, cancelAt: Option<real>)
      returns (granted: bool, now: real, ghost tries: seq<real>)
      requires Abstract().Sane() && last <= start
      modifies this
      ensures Ordered(old(last), tries) && Abstract() == Run(old(Abstract()), tries)
      ensures Abstract().Sane() && last <= now
      ensures granted ==> tries != [] && now == tries[|tries| - 1] && Attempt(Run(old(Abstract()), tries[..|tries| - 1]), now).1
      ensures !granted ==> cancelAt.Some? && now == if cancelAt.value < start then start else cancelAt.value
      ensures granted && cancelAt.Some? ==> now == start || now < cancelAt.value
      ensures granted ==> now <= start + 0.5 * (|others| + 1) as real
    {
      now, tries := start, [];
      ghost var l := Abstract();
      var n := 0;
      while true
        invariant 0 <= n <= |others| + 1
        invariant l.Sane() && Ordered(l.last, tries) && Abstract() == Run(l, tries)
        invariant Abstract().Sane() && last <= now && End(l.last, tries) == last
        invariant now <= start + 0.5 * n as real
        invariant if n == 0 then now == start else cancelAt.Some? ==> start <= now < cancelAt.value
        invariant n == |others| + 1 ==> Attempt(Abstract(), now).1
        decreases |others| + 1 - n
      {
        var wait;
        granted, wait := Take(now);
        OrderedParts(l.last, tries, [now]);
        RunParts(l, tries, [now]);
        Conservation(l, tries + [now]);
        tries := tries + [now];
        if granted {
          assert tries[..|tries| - 1] + [now] == tries;
          return;
        }
        ghost var m := Abstract();
        if cancelAt.Some? && cancelAt.value <= now + wait {
          now := if cancelAt.value < now then now else cancelAt.value;
          return;
        }
        var ts := if n < |others| then Squeezed(now, now + wait, others[n]) else [];
        SqueezedOrdered(now, now + wait, if n < |others| then others[n] else []);
        Rivals(ts);
        OrderedParts(l.last, tries, ts);
        RunParts(l, tries, ts);
        Conservation(l, tries + ts);
        if n == |others| {
          WaitSuffices(m, ts);
        }
        tries := tries + ts;
        now := now + wait;
        n := n + 1;
      }
    }
  }
}
