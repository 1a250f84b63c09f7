/** Background jobs: output lines in a ring with absolute line numbers, a read position, and the job's end. */
module JobOutput {
  import opened Options
  import opened Sequences
  import opened Lines
  import opened Octets
  import opened Delivery

  const MAX_BUFFERED_LINES: nat := 2000
  const MAX_LINES_PER_READ: nat := 400

  datatype Status = Running | Exited | Killed

  datatype State = State(
    lines: seq<string>, firstLine: nat, totalLines: nat, partial: string, cursor: nat,
    status: Status, exitCode: Option<int>, ended: bool)

  const STARTED := State([], 1, 0, "", 0, Running, None, false)

  const MAX_READ_CHARS: nat := 8000
  const CUT_NOTE := "\n...[cut \U{2014} read the rest with a larger since_line]"

  /** What job_output tells: line numbers from `from` on, the text displayed for them, and how many older and
      newer lines it left out. */
  datatype Report = Report(from: nat, shown: seq<string>, text: string, dropped: nat, more: nat)

  /** The lines joined, unless that is too long to display. */
  function Displayed(shown: seq<string>): string {
    if |JoinLines(shown)| > MAX_READ_CHARS then JoinLines(shown)[..MAX_READ_CHARS] + CUT_NOTE else JoinLines(shown)
  }

  // ---------------------------------------------------------------------------------------------
  // Steps

  function Pushed(s: State, line: string): State {
    var lines := s.lines + [line];
    if |lines| > MAX_BUFFERED_LINES then
      s.(lines := lines[1..], firstLine := s.firstLine + 1, totalLines := s.totalLines + 1)
    else s.(lines := lines, totalLines := s.totalLines + 1)
  }

  function PushedAll(s: State, lines: seq<string>): State
    decreases |lines|
  {
    if lines == [] then s else PushedAll(Pushed(s, lines[0]), lines[1..])
  }

  /** The lines that a chunk completes. */
  function Completed(s: State, chunk: string): seq<string> { Chopped(Split(s.partial + chunk).0) }

  function Received(s: State, chunk: string): State {
    PushedAll(s, Completed(s, chunk)).(partial := Split(s.partial + chunk).1)
  }

  /** The lines that the end of the job adds: an unfinished one and an error. */
  function Farewell(s: State, error: Option<string>): seq<string> {
    (if s.partial == "" then [] else [s.partial]) + (if error.Some? && error.value != "" then [error.value] else [])
  }

  /** The job ends once; what ends it later changes nothing. */
  function Finished(s: State, code: Option<int>, error: Option<string>): State {
    if s.ended then s
    else
      PushedAll(s, Farewell(s, error)).(
        partial := "", ended := true, exitCode := code, status := if s.status == Running then Exited else s.status)
  }

  function Stopped(s: State): State { if s.status == Running then s.(status := Killed) else s }

  /** The first line that a read behind line `since` can show. */
  function From(s: State, since: nat): nat { if since + 1 >= s.firstLine then since + 1 else s.firstLine }

  /** Lines `from` to the end of the ring, at most as many as one read shows. */
  function Shown(s: State, from: nat): (r: seq<string>)
    requires from >= s.firstLine
    ensures var left := s.firstLine + |s.lines| - from;
            |r| == if left <= 0 then 0 else if left <= 400 then left else 400
    ensures forall k | 0 <= k < |r| :: r[k] == s.lines[from - s.firstLine + k]
  {
    var at := from - s.firstLine;
    if at >= |s.lines| then []
    else if |s.lines| - at <= MAX_LINES_PER_READ then s.lines[at..]
    else s.lines[at..at + MAX_LINES_PER_READ]
  }

  /** What a read behind line `since` shows, and how many lines before that it counts as dropped. */
  function ShownBehind(s: State, since: nat): seq<string> { Shown(s, From(s, since)) }

  function DroppedBehind(s: State, since: nat): nat {
    if ShownBehind(s, since) == [] then 0 else From(s, since) - since - 1
  }

  function ReportOf(s: State, since: nat): Report {
    var from := From(s, since);
    var shown := ShownBehind(s, since);
    Report(from, shown, Displayed(shown), DroppedBehind(s, since),
           (if from - s.firstLine <= |s.lines| then |s.lines| - (from - s.firstLine) else 0) - |shown|)
  }

  /** A read moves the cursor to the last line shown, or to `since`, but never back. */
  function Moved(s: State, since: nat, shown: nat): State {
    var reached := if shown == 0 then since else From(s, since) + shown - 1;
    s.(cursor := if s.cursor >= reached then s.cursor else reached)
  }

  // ---------------------------------------------------------------------------------------------
  // The job object

  class Job {
    const decode: Bytes -> string
    var lines: seq<string>
    var firstLine: nat
    var totalLines: nat
    var partial: string
    var cursor: nat
    var status: Status
    var exitCode: Option<int>
    var ended: bool

    ghost function Now(): State
      reads this
    {
      State(lines, firstLine, totalLines, partial, cursor, status, exitCode, ended)
    }

    constructor (decode: Bytes -> string)
      ensures this.decode == decode && Now() == STARTED
    {
      this.decode := decode;
      lines, firstLine, totalLines, partial, cursor := [], 1, 0, "", 0;
      status, exitCode, ended := Running, None, false;
    }

    method PushLine(line: string)
      modifies this
      ensures Now() == Pushed(old(Now()), line)
    {
      lines := lines + [line];
      totalLines := totalLines + 1;
      if |lines| > MAX_BUFFERED_LINES {
        lines := lines[1..];
        firstLine := firstLine + 1;
      }
    }

    method PushLines(parts: seq<string>)
      modifies this
      ensures Now() == PushedAll(old(Now()), parts)
    {
      var i := 0;
      assert parts[0..] == parts;
      while i < |parts|
        invariant 0 <= i <= |parts|
        invariant PushedAll(Now(), parts[i..]) == PushedAll(old(Now()), parts)
      {
        assert parts[i..][1..] == parts[i + 1..];
        PushLine(parts[i]);
        i := i + 1;
      }
      assert parts[i..] == [];
    }

    /** A chunk of output, from either stream, decoded on its own. */
    method OnData(chunk: Bytes)
      modifies this
      ensures Now() == Received(old(Now()), decode(chunk))
    {
      var parts, rest := SplitLines(partial + decode(chunk));
      PartialStays(Now(), parts, rest);
      partial := rest;
      PushLines(parts);
    }

    method Finish(code: Option<int>, error: Option<string>)
      modifies this
      ensures Now() == Finished(old(Now()), code, error)
    {
      if ended {
        return;
      }
      ghost var s := Now();
      PartialStays(s, Farewell(s, error), "");
      FarewellInTurn(s, error);
      if partial != "" {
        PushLine(partial);
      }
      partial := "";
      if error.Some? && error.value != "" {
        PushLine(error.value);
      }
      ended := true;
      exitCode := code;
      if status == Running {
        status := Exited;
      }
    }

    method Kill()
      modifies this
      ensures Now() == Stopped(old(Now()))
    {
      if status == Running {
        status := Killed;
      }
    }

    /** Reads behind `sinceLine`, by default behind the last line handed out. */
    method Output(sinceLine: Option<nat>) returns (report: Report)
      modifies this
      ensures sinceLine.None? ==> report == ReportOf(old(Now()), old(cursor))
      ensures sinceLine.None? ==> Now() == Moved(old(Now()), old(cursor), |report.shown|)
      ensures sinceLine.Some? ==> report == ReportOf(old(Now()), sinceLine.value)
      ensures sinceLine.Some? ==> Now() == Moved(old(Now()), sinceLine.value, |report.shown|)
    {
      var since := if sinceLine.Some? then sinceLine.value else cursor;
      report := Select(since);
      var last := report.from + |report.shown| - 1;
      var reached: int := if report.shown != [] then last else since;
      if reached > cursor {
        cursor := reached;
      }
    }

    /** The lines to show, and what is left out before and behind them. */
    method Select(since: nat) returns (report: Report)
      ensures report == ReportOf(Now(), since)
    {
      var from := if since + 1 >= firstLine then since + 1 else firstLine;
      var all := if from - firstLine <= |lines| then lines[from - firstLine..] else [];
      var shown := if |all| <= MAX_LINES_PER_READ then all else all[..MAX_LINES_PER_READ];
      ShownIs(Now(), from, all, shown);
      var text := JoinLines(shown);
      if |text| > MAX_READ_CHARS {
        text := text[..MAX_READ_CHARS] + CUT_NOTE;
      }
      report := Report(from, shown, text, if shown != [] then from - since - 1 else 0, |all| - |shown|);
    }
  }

  lemma ShownIs(s: State, from: nat, all: seq<string>, shown: seq<string>)
    requires from >= s.firstLine && all == (if from - s.firstLine <= |s.lines| then s.lines[from - s.firstLine..] else [])
    requires shown == if |all| <= MAX_LINES_PER_READ then all else all[..MAX_LINES_PER_READ]
    ensures shown == Shown(s, from)
  {
    assert |shown| == |Shown(s, from)|;
    forall k | 0 <= k < |shown|
      ensures shown[k] == Shown(s, from)[k]
    {
    }
  }

  lemma {:induction false} PartialStays(s: State, lines: seq<string>, partial: string)
    ensures PushedAll(s.(partial := partial), lines) == PushedAll(s, lines).(partial := partial)
    decreases |lines|
  {
    if lines != [] {
      PartialStays(Pushed(s, lines[0]), lines[1..], partial);
    }
  }

  lemma FarewellInTurn(s: State, error: Option<string>)
    ensures PushedAll(s, Farewell(s, error))
         == (var t := if s.partial == "" then s else Pushed(s, s.partial);
             if error.Some? && error.value != "" then Pushed(t, error.value) else t)
  {
    assert forall t: State :: PushedAll(t, []) == t;
    if error.Some? && error.value != "" {
      PushedOne(s, error.value);
      if s.partial != "" {
        assert Farewell(s, error)[1..] == [error.value];
        PushedOne(Pushed(s, s.partial), error.value);
      } else {
        assert Farewell(s, error) == [error.value];
      }
    } else if s.partial != "" {
      assert Farewell(s, error) == [s.partial];
      PushedOne(s, s.partial);
    }
  }

  lemma PushedOne(s: State, line: string)
    ensures PushedAll(s, [line]) == Pushed(s, line)
  {
    assert PushedAll(Pushed(s, line), []) == Pushed(s, line);
  }

  /** The lines are displayed in full if and only if they fit (or the text to be cut off is the note itself). */
  lemma DisplayedInFull(shown: seq<string>)
    ensures Displayed(shown) == JoinLines(shown)
       <==> |JoinLines(shown)| <= 8000 || JoinLines(shown)[8000..] == CUT_NOTE
    ensures shown == [] ==> Displayed(shown) == ""
    ensures |JoinLines(shown)| > 8000 ==>
              Displayed(shown) == JoinLines(shown)[..8000] + "\n...[cut \U{2014} read the rest with a larger since_line]"
  {
    if |JoinLines(shown)| > 8000 {
      CutText(JoinLines(shown), CUT_NOTE, 8000);
    }
  }

  lemma CutText(text: string, note: string, n: nat)
    requires |text| > n
    ensures text[..n] + note == text <==> text[n..] == note
  {
    assert text == text[..n] + text[n..] && (text[..n] + note)[n..] == note;
  }

  // ---------------------------------------------------------------------------------------------
  // Runs

  datatype Event = Data(chunk: string) | Finish(code: Option<int>, error: Option<string>) | Kill | DefaultRead

  /** The job, the text it has written, all its lines so far, and what default reads have told of them. */
  datatype World = World(job: State, text: string, log: seq<string>, told: seq<Option<string>>)

  function Next(w: World, e: Event): World {
    match e
    case Data(chunk) => World(Received(w.job, chunk), w.text + chunk, w.log + Completed(w.job, chunk), w.told)
    case Finish(code, error) =>
      w.(job := Finished(w.job, code, error), log := if w.job.ended then w.log else w.log + Farewell(w.job, error))
    case Kill => w.(job := Stopped(w.job))
    case DefaultRead =>
      w.(job := Moved(w.job, w.job.cursor, |ShownBehind(w.job, w.job.cursor)|),
         told := w.told + Told(DroppedBehind(w.job, w.job.cursor), ShownBehind(w.job, w.job.cursor)))
  }

  function After(w: World, events: seq<Event>): World
    decreases |events|
  {
    if events == [] then w else After(Next(w, events[0]), events[1..])
  }

  /** lines[k] is line firstLine + k of the log, of which the ring holds the last 2000. */
  ghost predicate Numbered(s: State, log: seq<string>) {
    IsRing(s.lines, log, 2000) && s.firstLine == |log| - |s.lines| + 1 && s.totalLines == |log|
  }

  /** Up to its cursor, every line was told once, in order: shown, or as dropped from the ring. */
  ghost predicate TellsAll(s: State, log: seq<string>, told: seq<Option<string>>) {
    s.cursor == |told| && Covers(told, log, s.firstLine - 1)
  }

  /** Until the job ends, the log is the lines of its text. */
  ghost predicate InLines(s: State, text: string, log: seq<string>) {
    !s.ended ==> log == Chopped(Split(text).0) && s.partial == Split(text).1
  }

  ghost predicate Sound(w: World) {
    && Numbered(w.job, w.log) && TellsAll(w.job, w.log, w.told) && InLines(w.job, w.text, w.log)
    && (w.job.ended ==> w.job.status != Running) && (w.job.status == Exited ==> w.job.ended)
  }

  lemma PushKeeps(s: State, log: seq<string>, line: string)
    requires Numbered(s, log)
    ensures Numbered(Pushed(s, line), log + [line]) && Pushed(s, line).firstLine >= s.firstLine
  {
    RingPush(s.lines, log, MAX_BUFFERED_LINES, line);
  }

  lemma {:induction false} PushAllKeeps(s: State, log: seq<string>, lines: seq<string>)
    requires Numbered(s, log)
    ensures Numbered(PushedAll(s, lines), log + lines) && PushedAll(s, lines).firstLine >= s.firstLine
    ensures PushedAll(s, lines)
         == s.(lines := PushedAll(s, lines).lines, firstLine := PushedAll(s, lines).firstLine,
               totalLines := PushedAll(s, lines).totalLines)
    decreases |lines|
  {
    if lines == [] {
      assert log + lines == log;
    } else {
      PushKeeps(s, log, lines[0]);
      PushAllKeeps(Pushed(s, lines[0]), log + [lines[0]], lines[1..]);
      assert log + [lines[0]] + lines[1..] == log + lines;
    }
  }

  /** What a read shows is the log from line `from` on, as much as fits. */
  lemma ReadIsLog(s: State, log: seq<string>, since: nat, shown: seq<string>)
    requires Numbered(s, log) && shown == Shown(s, From(s, since))
    ensures shown == [] <==> since >= |log|
    ensures since < |log| ==> From(s, since) + |shown| - 1 <= |log|
    ensures forall k | 0 <= k < |shown| :: shown[k] == log[From(s, since) - 1 + k]
  {
    forall k | 0 <= k < |shown|
      ensures shown[k] == log[From(s, since) - 1 + k]
    {
      assert shown[k] == s.lines[From(s, since) - s.firstLine + k];
    }
  }

  lemma ReadTellsOn(s: State, log: seq<string>, told: seq<Option<string>>, dropped: nat, shown: seq<string>)
    requires Numbered(s, log) && TellsAll(s, log, told)
    requires shown == ShownBehind(s, s.cursor) && dropped == DroppedBehind(s, s.cursor)
    ensures TellsAll(Moved(s, s.cursor, |shown|), log, told + Told(dropped, shown))
  {
    ReadIsLog(s, log, s.cursor, shown);
    CoversMore(told, log, s.firstLine - 1, dropped, shown);
  }

  /** A default read goes on where the last one stopped. */
  lemma ReadKeeps(w: World)
    requires Sound(w)
    ensures Sound(Next(w, DefaultRead))
  {
    ReadTellsOn(w.job, w.log, w.told, DroppedBehind(w.job, w.job.cursor), ShownBehind(w.job, w.job.cursor));
  }

  lemma DataKeeps(w: World, chunk: string)
    requires Sound(w)
    ensures Sound(Next(w, Data(chunk)))
  {
    var more := Completed(w.job, chunk);
    PushAllKeeps(w.job, w.log, more);
    CoversLongerLog(w.told, w.log, w.job.firstLine - 1, more, PushedAll(w.job, more).firstLine - 1);
    if !w.job.ended {
      SplitAppend(w.text, chunk);
      assert Chopped(Split(w.text + chunk).0) == Chopped(Split(w.text).0) + more;
    }
  }

  lemma FinishKeeps(w: World, code: Option<int>, error: Option<string>)
    requires Sound(w)
    ensures Sound(Next(w, Finish(code, error)))
  {
    if !w.job.ended {
      var more := Farewell(w.job, error);
      PushAllKeeps(w.job, w.log, more);
      CoversLongerLog(w.told, w.log, w.job.firstLine - 1, more, PushedAll(w.job, more).firstLine - 1);
    }
  }

  /** After any interleaving of output, default reads, kills and ends. */
  lemma {:induction false} RunKeeps(w: World, events: seq<Event>)
    requires Sound(w)
    ensures Sound(After(w, events))
    decreases |events|
  {
    if events != [] {
      match events[0] {
        case Data(chunk) => DataKeeps(w, chunk);
        case Finish(code, error) => FinishKeeps(w, code, error);
        case Kill =>
        case DefaultRead => ReadKeeps(w);
      }
      RunKeeps(Next(w, events[0]), events[1..]);
    }
  }

  lemma StartIsSound(w: World)
    requires w == World(STARTED, "", [], [])
    ensures Sound(w)
  {
  }

  /** While the reader keeps up with the ring, nothing is dropped: told is the log up to the cursor. */
  lemma NothingDropped(w: World)
    requires Sound(w) && |w.log| <= 2000
    ensures forall k | 0 <= k < |w.told| :: w.told[k] == Some(w.log[k])
  {
  }

  /** Default reads reach the end: each tells of something new, until the cursor is at the last line. */
  lemma ReadsAdvance(w: World)
    requires Sound(w)
    ensures w.job.cursor < |w.log| <==> Next(w, DefaultRead).job.cursor > w.job.cursor
    ensures w.job.cursor < |w.log| <==> ReportOf(w.job, w.job.cursor).shown != []
  {
  }

  /** A report accounts for every line behind `since`: dropped, shown, or still to come; if it shows none there is
      none. */
  lemma ReportAccounts(w: World, since: nat)
    requires Sound(w)
    ensures var r := ReportOf(w.job, since);
      && (since < |w.log| ==> since + r.dropped + |r.shown| + r.more == |w.log|)
      && (since >= |w.log| ==> r.dropped == 0 && r.shown == [] && r.more == 0)
      && |r.shown| <= 400 && (r.more > 0 ==> |r.shown| == 400)
      && (r.dropped > 0 ==> r.from == |w.log| - 1999)
  {
    ReadIsLog(w.job, w.log, since, Shown(w.job, From(w.job, since)));
  }

  /** What the log is when the job has ended: the lines of its text, the unfinished one, and the error. */
  lemma EndSays(w: World, code: Option<int>, error: Option<string>)
    requires Sound(w) && !w.job.ended
    ensures var t := Next(w, Finish(code, error));
      && t.log == Chopped(Split(w.text).0) + (if Split(w.text).1 == "" then [] else [Split(w.text).1])
                  + (match error case None => [] case Some(e) => if e == "" then [] else [e])
      && t.job.exitCode == code && t.job.ended && t.job.partial == ""
      && t.job.status == if w.job.status == Running then Exited else w.job.status
  {
    FinishKeeps(w, code, error);
    Associate(w.log, if w.job.partial == "" then [] else [w.job.partial],
              if error.Some? && error.value != "" then [error.value] else []);
  }

  /** The cursor after a read behind line `since`. */
  function Reached(s: State, since: nat): nat { Moved(s, since, |ReportOf(s, since).shown|).cursor }

  /** The report tells of line `n`: shows it, or counts it as dropped. */
  predicate TellsOf(r: Report, n: int) { r.from - r.dropped <= n < r.from + |r.shown| }

  /** A read behind a line the caller names: every line up to the new cursor has been told of if and only
      if the caller did not skip ahead of the cursor; and the cursor overtakes the log if and only if the
      named line is beyond it. */
  lemma ReadBehind(w: World, since: nat)
    requires Sound(w)
    ensures since <= w.job.cursor
       <==> (forall n | w.job.cursor < n <= Reached(w.job, since) :: TellsOf(ReportOf(w.job, since), n))
    ensures since <= |w.log| <==> Reached(w.job, since) <= |w.log|
  {
    ReadIsLog(w.job, w.log, since, Shown(w.job, From(w.job, since)));
    var r := ReportOf(w.job, since);
    if since > w.job.cursor {
      var n := w.job.cursor + 1;
      assert w.job.cursor < n <= Reached(w.job, since) && !TellsOf(r, n);
    }
  }

  /** Once ended, a job keeps its status and exit code, and once killed it stays killed. */
  lemma EndIsFinal(w: World, e: Event)
    requires Sound(w)
    ensures w.job.ended ==> Next(w, e).job.ended && Next(w, e).job.status == w.job.status && Next(w, e).job.exitCode == w.job.exitCode
    ensures w.job.status == Killed ==> Next(w, e).job.status == Killed
    ensures Next(w, e).job.status == Running ==> w.job.status == Running
  {
    match e
    case Data(chunk) => PushAllKeeps(w.job, w.log, Completed(w.job, chunk));
    case Finish(code, error) => PushAllKeeps(w.job, w.log, Farewell(w.job, error));
    case _ =>
  }
}
