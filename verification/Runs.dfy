/** Composing runs. */
module Runs {
  import opened Records
  import opened Protocol

  ghost predicate Does(lim: Limits, s: Sys, a: Action, t: Sys) {
    Enabled(lim, s, a) && t == Apply(lim, s, a)
  }

  lemma {:induction false} Prepend(lim: Limits, s: Sys, a: Action, run: seq<Action>)
    requires Enabled(lim, s, a) && Valid(lim, Apply(lim, s, a), run)
    ensures Valid(lim, s, [a] + run) && After(lim, s, [a] + run) == After(lim, Apply(lim, s, a), run)
  {
    assert ([a] + run)[1..] == run;
  }

  lemma {:induction false} Concat(lim: Limits, s: Sys, first: seq<Action>, rest: seq<Action>)
    requires Valid(lim, s, first) && Valid(lim, After(lim, s, first), rest)
    ensures Valid(lim, s, first + rest)
    ensures After(lim, s, first + rest) == After(lim, After(lim, s, first), rest)
    decreases |first|
  {
    hide Enabled, Apply;
    if first == [] {
      assert first + rest == rest;
    } else {
      Concat(lim, Apply(lim, s, first[0]), first[1..], rest);
      assert first + rest == [first[0]] + (first[1..] + rest);
      Prepend(lim, s, first[0], first[1..] + rest);
    }
  }

  lemma Append(lim: Limits, s: Sys, run: seq<Action>, a: Action)
    requires Valid(lim, s, run) && Enabled(lim, After(lim, s, run), a)
    ensures Valid(lim, s, run + [a])
    ensures After(lim, s, run + [a]) == Apply(lim, After(lim, s, run), a)
  {
    hide Enabled, Apply;
    Concat(lim, s, run, [a]);
  }
}
