/** The shell side of a job: quoting for /bin/sh and reading back the status file that the
    bootstrap script leaves in the VM. */
module Bootstrap {
  import opened Records
  import opened Text

  // ---------------------------------------------------------------- quoting

  /** strings.ReplaceAll(s, "'", `'\''`). */
  function Escape(s: string): string {
    if s == "" then ""
    else (if s[0] == '\'' then "'\\''" else [s[0]]) + Escape(s[1..])
  }

  function ShellQuote(s: string): string {
    "'" + Escape(s) + "'"
  }

  /** What ends a word of the shell command language outside quotes. */
  predicate IsDelimiter(c: char) {
    c in " \t\n|&;<>()"
  }

  /** Reads one shell word from the front of `s` and removes its quotes (sections 2.2.1 and
      2.2.2 of the POSIX.1-2017 Shell Command Language). Expansions and double quotes are
      beyond it: None. `inQuotes`: inside single quotes. */
  function ReadWord(s: string, inQuotes: bool): Option<(string, string)>
    decreases |s|
  {
    if s == "" then (if inQuotes then None else Some(("", "")))
    else if inQuotes then
      (if s[0] == '\'' then ReadWord(s[1..], false) else Prefixed(s[0], ReadWord(s[1..], true)))
    else if IsDelimiter(s[0]) then Some(("", s))
    else if s[0] == '\'' then ReadWord(s[1..], true)
    else if s[0] == '\\' then
      (if |s| == 1 then None
       else if s[1] == '\n' then ReadWord(s[2..], false)
       else Prefixed(s[1], ReadWord(s[2..], false)))
    else if s[0] in "\"$`" then None
    else Prefixed(s[0], ReadWord(s[1..], false))
  }

  function Prefixed(c: char, r: Option<(string, string)>): Option<(string, string)> {
    if r.None? then None else Some(([c] + r.value.0, r.value.1))
  }

  function Extended(s: string, r: Option<(string, string)>): Option<(string, string)> {
    if r.None? then None else Some((s + r.value.0, r.value.1))
  }

  lemma PrefixExtends(c: char, s: string, r: Option<(string, string)>)
    ensures Prefixed(c, Extended(s, r)) == Extended([c] + s, r)
  {
    if r.Some? {
      assert [c] + (s + r.value.0) == ([c] + s) + r.value.0;
    }
  }

  /** Closing the quotes, an escaped quote, opening them again: one quote character. */
  lemma QuoteReads(tail: string)
    ensures ReadWord("'\\''" + tail, true) == Prefixed('\'', ReadWord(tail, true))
  {
    var text := "'\\''" + tail;
    assert text[1..] == "\\''" + tail;
    assert text[1..][2..] == "'" + tail;
    assert ("'" + tail)[1..] == tail;
    assert ReadWord("'" + tail, false) == ReadWord(tail, true);
  }

  /** Inside quotes the escaped text reads back as `s`, and the closing quote ends it. */
  lemma {:induction false} EscapeReads(s: string, rest: string)
    ensures ReadWord(Escape(s) + "'" + rest, true) == Extended(s, ReadWord(rest, false))
  {
    var text := Escape(s) + "'" + rest;
    if s == "" {
      assert text[1..] == rest;
      assert ReadWord(rest, false).Some? ==> "" + ReadWord(rest, false).value.0 == ReadWord(rest, false).value.0;
    } else {
      var tail := Escape(s[1..]) + "'" + rest;
      EscapeReads(s[1..], rest);
      PrefixExtends(s[0], s[1..], ReadWord(rest, false));
      assert s == [s[0]] + s[1..];
      if s[0] == '\'' {
        assert text == "'\\''" + tail;
        QuoteReads(tail);
      } else {
        assert text == [s[0]] + tail && text[1..] == tail;
      }
    }
  }

  /** Whatever `s` contains, the shell reads ShellQuote(s) as one word whose value is `s`,
      and carries on exactly behind it. */
  lemma QuotedIsOneWord(s: string, rest: string)
    requires rest == "" || IsDelimiter(rest[0])
    ensures ReadWord(ShellQuote(s) + rest, false) == Some((s, rest))
  {
    var text := ShellQuote(s) + rest;
    assert text == "'" + (Escape(s) + "'" + rest) && text[1..] == Escape(s) + "'" + rest;
    EscapeReads(s, rest);
    assert s + "" == s;
  }

  const SCRIPT_PATH := "$HOME/mcra-bootstrap.sh"
  const JIT_PATH := "$HOME/.mcra-jit.b64"
  const STATUS_PATH := "$HOME/.mcra-status"

  /** `script64` is the base64 text of the script. */
  function StageCommand(script64: string, jit: string): string {
    "printf '%s' " + ShellQuote(script64) + AfterScript(jit)
  }

  function AfterScript(jit: string): string {
    " | base64 -d > " + SCRIPT_PATH + " && printf '%s' " + ShellQuote(jit) + AfterJit()
  }

  function AfterJit(): string {
    " > " + JIT_PATH + " && chmod 700 " + SCRIPT_PATH + " && rm -f " + STATUS_PATH + " && echo staged"
  }

  /** Neither blob can reach out of its argument: the shell sees each verbatim, and the text
      after it is the command's own. */
  lemma StagedVerbatim(script64: string, jit: string)
    ensures var cmd := StageCommand(script64, jit);
            |"printf '%s' "| <= |cmd| && ReadWord(cmd[|"printf '%s' "|..], false) == Some((script64, AfterScript(jit)))
    ensures ReadWord(ShellQuote(jit) + AfterJit(), false) == Some((jit, AfterJit()))
  {
    var head := "printf '%s' ";
    assert StageCommand(script64, jit)[|head|..] == ShellQuote(script64) + AfterScript(jit);
    QuotedIsOneWord(script64, AfterScript(jit));
    QuotedIsOneWord(jit, AfterJit());
  }

  // ---------------------------------------------------------------- status

  const SEPARATOR := "---MCRA-LOG---"

  datatype Status = Status(phase: string, exit: int, hasExit: bool, logTail: string)
  {
    predicate Launched() {
      phase != ""
    }

    predicate Failed() {
      HasSuffix(phase, "_failed")
    }

    predicate Done() {
      phase == "done"
    }
  }

  /** One line of the status file. */
  function ReadLine(st: Status, text: string): Status {
    var line := TrimSpace(text);
    var a := if HasPrefix(line, "PHASE=") then st.(phase := line[6..]) else st;
    if HasPrefix(line, "EXIT=") && Atoi(line[5..]).Some? then a.(exit := Atoi(line[5..]).value, hasExit := true) else a
  }

  function ReadLines(st: Status, lines: seq<string>): Status {
    if lines == [] then st else ReadLine(ReadLines(st, lines[..|lines| - 1]), lines[|lines| - 1])
  }

  /** The meaning of a status reply: the last PHASE= and the last readable EXIT= line before
      the first separator, and everything after it as log. */
  function StatusOf(out: string): Status {
    match Cut(out, SEPARATOR)
    case None => ReadLines(Status("", 0, false, ""), Lines(out))
    case Some((head, tail)) => ReadLines(Status("", 0, false, TrimSpace(tail)), Lines(head))
  }

  method ParseStatus(out: string) returns (st: Status)
    ensures st == StatusOf(out)
  {
    st := Status("", 0, false, "");
    var head := out;
    var cut := Cut(out, SEPARATOR);
    if cut.Some? {
      head := cut.value.0;
      st := st.(logTail := TrimSpace(cut.value.1));
    }
    ghost var start := st;
    var lines := Lines(head);
    for n := 0 to |lines|
      invariant st == ReadLines(start, lines[..n])
    {
      var line := TrimSpace(lines[n]);
      if HasPrefix(line, "PHASE=") {
        st := st.(phase := line[6..]);
      }
      if HasPrefix(line, "EXIT=") {
        var exit := Atoi(line[5..]);
        if exit.Some? {
          st := st.(exit := exit.value, hasExit := true);
        }
      }
      assert lines[..n + 1][..n] == lines[..n];
    }
    assert lines[..|lines|] == lines;
  }

  // ---------------------------------------------------------------- what the script writes

  /** The status file: absent, written by phase(), or written by fail() or at the end. */
  datatype StatusFile = Absent | InPhase(phase: string) | Ended(phase: string, exit: nat)

  function FileText(f: StatusFile): string {
    match f
    case Absent => ""
    case InPhase(p) => "PHASE=" + p + "\n"
    case Ended(p, e) => "PHASE=" + p + "\n" + ("EXIT=" + Itoa(e) + "\n")
  }

  /** cat of the status file, the separator line, tail of the log. */
  function CommandOutput(f: StatusFile, log: string): string {
    FileText(f) + SEPARATOR + "\n" + log
  }

  /** A phase name that fits on its line. Every name the script uses does. */
  ghost predicate PhaseName(p: string) {
    Tight(p) && '\n' !in p && Clean(p)
  }

  ghost predicate Printable(f: StatusFile) {
    match f
    case Absent => true
    case InPhase(p) => PhaseName(p)
    case Ended(p, e) => PhaseName(p) && e <= MAX_INT64
  }

  /** The separator can start only inside the value of a tag=value line. */
  lemma InsideValue(tag: string, value: string, j: nat)
    requires '-' !in tag && OccursAt(tag + value, SEPARATOR, j)
    ensures |tag| <= j && OccursAt(value, SEPARATOR, j - |tag|)
  {
    var s := tag + value;
    OccursChars(s, SEPARATOR);
    assert s[j + 0] == SEPARATOR[0] == '-';
    assert forall i :: 0 <= i < |tag| ==> s[i] == tag[i] && tag[i] in tag;
    assert s[j..j + |SEPARATOR|] == value[j - |tag|..j - |tag| + |SEPARATOR|];
  }

  /** It never straddles a line end. */
  lemma WithinLine(line: string, rest: string, j: nat)
    requires OccursAt(line + "\n" + rest, SEPARATOR, j)
    ensures if j <= |line| then OccursAt(line, SEPARATOR, j) else OccursAt(rest, SEPARATOR, j - |line| - 1)
  {
    var s := line + "\n" + rest;
    OccursChars(s, SEPARATOR);
    if j <= |line| {
      assert forall k: nat :: k < |SEPARATOR| ==> s[j + k] == SEPARATOR[k] && SEPARATOR[k] in SEPARATOR;
      assert s[j + (|line| - j)] == '\n' && '\n' !in SEPARATOR;
      assert s[j..j + |SEPARATOR|] == line[j..j + |SEPARATOR|];
    } else {
      assert s[j..j + |SEPARATOR|] == rest[j - |line| - 1..j - |line| - 1 + |SEPARATOR|];
    }
  }

  ghost predicate Clean(value: string) {
    forall j: nat :: !OccursAt(value, SEPARATOR, j)
  }

  lemma DigitsClean(e: nat)
    ensures Clean(Itoa(e))
  {
    OccursChars(Itoa(e), SEPARATOR);
    forall j: nat ensures !OccursAt(Itoa(e), SEPARATOR, j) {
      assert j + 0 < |Itoa(e)| ==> Itoa(e)[j + 0] in Itoa(e);
      assert SEPARATOR[0] == '-';
    }
  }

  /** Behind a clean tag=value line, occurrences are those of the rest. */
  lemma BehindLine(tag: string, value: string, rest: string, j: nat)
    requires '-' !in tag && Clean(value)
    requires OccursAt(tag + value + "\n" + rest, SEPARATOR, j)
    ensures |tag + value| < j && OccursAt(rest, SEPARATOR, j - |tag + value| - 1)
  {
    WithinLine(tag + value, rest, j);
    if OccursAt(tag + value, SEPARATOR, j) {
      InsideValue(tag, value, j);
    }
  }

  lemma BehindFile(f: StatusFile, rest: string, j: nat)
    requires Printable(f) && OccursAt(FileText(f) + rest, SEPARATOR, j)
    ensures |FileText(f)| <= j
  {
    match f
    case Absent =>
    case InPhase(p) =>
      BehindLine("PHASE=", p, rest, j);
    case Ended(p, e) =>
      var second := "EXIT=" + Itoa(e) + "\n";
      assert FileText(f) + rest == "PHASE=" + p + "\n" + (second + rest);
      BehindLine("PHASE=", p, second + rest, j);
      DigitsClean(e);
      BehindLine("EXIT=", Itoa(e), rest, j - |"PHASE=" + p| - 1);
  }

  lemma CutBehind(front: string, rest: string)
    requires forall j: nat :: OccursAt(front + (SEPARATOR + rest), SEPARATOR, j) ==> |front| <= j
    ensures Cut(front + (SEPARATOR + rest), SEPARATOR) == Some((front, rest))
  {
    var out := front + (SEPARATOR + rest);
    assert out[|front|..|front| + |SEPARATOR|] == SEPARATOR;
    CutAt(out, SEPARATOR, |front|);
    assert out[..|front|] == front && out[|front| + |SEPARATOR|..] == rest;
  }

  lemma FirstSeparator(f: StatusFile, log: string)
    requires Printable(f)
    ensures Cut(CommandOutput(f, log), SEPARATOR) == Some((FileText(f), "\n" + log))
  {
    var tail := SEPARATOR + ("\n" + log);
    forall j: nat | OccursAt(FileText(f) + tail, SEPARATOR, j) ensures |FileText(f)| <= j {
      BehindFile(f, tail, j);
    }
    CutBehind(FileText(f), "\n" + log);
    assert CommandOutput(f, log) == FileText(f) + tail;
  }

  lemma TightTrim(s: string)
    requires Tight(s)
    ensures TrimSpace(s) == s
  {
  }

  lemma ReadPhase(st: Status, p: string)
    requires PhaseName(p)
    ensures ReadLine(st, "PHASE=" + p) == st.(phase := p)
  {
    var line := "PHASE=" + p;
    assert line[|line| - 1] == if p == "" then '=' else p[|p| - 1];
    TightTrim(line);
    assert line[..6] == "PHASE=" && line[6..] == p;
    assert line[0] == 'P';
  }

  lemma ExitLine(d: string)
    requires d != "" && IsDigit(d[|d| - 1])
    ensures var line := "EXIT=" + d;
            TrimSpace(line) == line && !HasPrefix(line, "PHASE=") && HasPrefix(line, "EXIT=") && line[5..] == d
  {
    var line := "EXIT=" + d;
    assert line[|line| - 1] == d[|d| - 1];
    assert line[0] == 'E';
    TightTrim(line);
    hide TrimSpace;
    assert line[..5] == "EXIT=";
    assert |line| >= 6 ==> line[..6][0] == 'E';
  }

  lemma ReadExit(st: Status, e: nat)
    requires e <= MAX_INT64
    ensures ReadLine(st, "EXIT=" + Itoa(e)) == st.(exit := e, hasExit := true)
  {
    var d := Itoa(e);
    assert d[|d| - 1] in d;
    ExitLine(d);
    AtoiInvertsItoa(e);
    hide Itoa, Atoi, TrimSpace, HasPrefix;
  }

  lemma PhaseLines(p: string, rest: string)
    requires PhaseName(p)
    ensures Lines("PHASE=" + p + "\n" + rest) == if Fits(p) then ["PHASE=" + p] + Lines(rest) else []
  {
    var line := "PHASE=" + p;
    assert line[|line| - 1] == if p == "" then '=' else p[|p| - 1];
    assert '\n' !in line;
    LinesCons(line, rest);
  }

  lemma ExitLines(e: nat)
    requires e <= MAX_INT64
    ensures Lines("EXIT=" + Itoa(e) + "\n") == ["EXIT=" + Itoa(e)]
  {
    var d := Itoa(e);
    var line := "EXIT=" + d;
    assert line[|line| - 1] == d[|d| - 1] && d[|d| - 1] in d;
    assert '\n' !in d;
    assert '\n' !in line;
    Int64Length(e);
    LinesCons(line, "");
    assert line + "\n" + "" == line + "\n";
  }

  lemma OneLine(st: Status, a: string)
    ensures ReadLines(st, [a] + []) == ReadLine(st, a)
  {
    assert ([a] + [])[..0] == [];
  }

  lemma TwoLines(st: Status, a: string, b: string)
    ensures ReadLines(st, [a] + [b]) == ReadLine(ReadLine(st, a), b)
  {
    assert ([a] + [b])[..1] == [a] + [];
    OneLine(st, a);
  }

  /** The line of this phase is one that the scanner can read. */
  predicate Fits(p: string) {
    |p| <= MAX_LINE - |"PHASE="|
  }

  /** What the status file says; a phase that does not fit hides the exit code as well. */
  function Expected(f: StatusFile, log: string): Status {
    var tail := TrimSpace(log);
    match f
    case Absent => Status("", 0, false, tail)
    case InPhase(p) => Status(if Fits(p) then p else "", 0, false, tail)
    case Ended(p, e) => if Fits(p) then Status(p, e, true, tail) else Status("", 0, false, tail)
  }

  /** Reading a status reply recovers the phase, the exit code and the trimmed log from any
      status file the script writes and any log, even one that contains the separator, exactly
      if the phase fits into a line. */
  lemma StatusRoundTrip(f: StatusFile, log: string)
    requires Printable(f)
    ensures StatusOf(CommandOutput(f, log)) == Expected(f, log)
  {
    FirstSeparator(f, log);
    assert ("\n" + log)[1..] == log;
    assert TrimSpace("\n" + log) == TrimSpace(log);
    var st := Status("", 0, false, TrimSpace(log));
    match f
    case Absent =>
    case InPhase(p) =>
      assert FileText(f) == "PHASE=" + p + "\n" + "";
      PhaseLines(p, "");
      ReadPhase(st, p);
      OneLine(st, "PHASE=" + p);
    case Ended(p, e) =>
      PhaseLines(p, "EXIT=" + Itoa(e) + "\n");
      ExitLines(e);
      ReadPhase(st, p);
      ReadExit(st.(phase := p), e);
      TwoLines(st, "PHASE=" + p, "EXIT=" + Itoa(e));
  }

  // ---------------------------------------------------------------- the script's own files

  /** How far the script in the VM has come. */
  datatype Stage = NotStarted | Downloading | Extracting | Running | Stopped(step: Step) | Exited(code: nat)

  datatype Step = InDownload | InExtract | InConfigure

  function StepName(step: Step): string {
    match step
    case InDownload => "download"
    case InExtract => "extract"
    case InConfigure => "configure"
  }

  function ScriptFile(stage: Stage): StatusFile {
    match stage
    case NotStarted => Absent
    case Downloading => InPhase("download")
    case Extracting => InPhase("extract")
    case Running => InPhase("run")
    case Stopped(step) => Ended(StepName(step) + "_failed", 1)
    case Exited(code) => Ended("done", code)
  }

  predicate Plain(p: string) {
    p != "" && forall i :: 0 <= i < |p| ==> 'a' <= p[i] <= 'z' || p[i] == '_'
  }

  lemma PlainName(p: string)
    requires Plain(p)
    ensures PhaseName(p)
  {
    OccursChars(p, SEPARATOR);
    forall j: nat ensures !OccursAt(p, SEPARATOR, j) {
      assert SEPARATOR[0] == '-';
      assert j + 0 < |p| ==> p[j + 0] != '-';
    }
  }

  lemma FailureName(step: Step)
    ensures var p := StepName(step) + "_failed";
            Plain(p) && HasSuffix(p, "_failed") && p != "done"
  {
    var p := StepName(step) + "_failed";
    assert p[|p| - 7..] == "_failed";
    assert |p| > 4;
  }

  lemma OtherNames()
    ensures forall p :: p in ["download", "extract", "run", "done"] ==> Plain(p) && !HasSuffix(p, "_failed")
  {
    assert "download"[|"download"| - 7] == 'o';
    assert "extract"[|"extract"| - 7] == 'e';
  }

  /** The names are printable and their suffix tells the failures apart. */
  lemma ScriptNames(stage: Stage)
    requires stage != NotStarted
    ensures var p := ScriptFile(stage).phase;
            PhaseName(p) && Fits(p) && p != "" && (HasSuffix(p, "_failed") <==> stage.Stopped?) && (p == "done" <==> stage.Exited?)
  {
    if stage.Stopped? {
      FailureName(stage.step);
    } else {
      OtherNames();
      assert "download" != "done" && "extract" != "done" && "run" != "done";
    }
    PlainName(ScriptFile(stage).phase) by {
      hide HasSuffix;
    }
    hide PhaseName, Plain, HasSuffix;
  }

  lemma NoFailure()
    ensures !HasSuffix("", "_failed")
  {
  }

  /** What monitor concludes from a status reply is what the script did, whatever the log says:
      launched, broken before the runner could work, or exited with exactly this code. */
  lemma ScriptIsUnderstood(stage: Stage, log: string)
    requires stage.Exited? ==> stage.code <= 255
    ensures var st := StatusOf(CommandOutput(ScriptFile(stage), log));
            && (st.Launched() <==> !stage.NotStarted?)
            && (st.Failed() <==> stage.Stopped?)
            && (st.Done() <==> stage.Exited?)
            && (stage.Exited? ==> st.hasExit && st.exit == stage.code)
            && st.logTail == TrimSpace(log)
  {
    hide StatusOf, CommandOutput, PhaseName, HasSuffix;
    if stage != NotStarted {
      ScriptNames(stage);
    }
    NoFailure();
    StatusRoundTrip(ScriptFile(stage), log);
  }
}
