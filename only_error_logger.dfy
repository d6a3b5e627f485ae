// The "only error" logging strategy: a logger that drops every message below
// ERROR and writes each ERROR, CRITICAL, ALERT and EMERGENCY message as one
// line on the error console, "<timestamp> <label> <message>", followed by the
// extra arguments of the call.

module OnlyErrorLogger {
  import opened Wrappers

  /** The eight levels, from the least to the most severe. */
  datatype LogLevel = Debug | Info | Notice | Warning | Error | Critical | Alert | Emergency

  /** Position of a level in the order above. */
  function Severity(level: LogLevel): nat
  {
    match level
    case Debug => 0
    case Info => 1
    case Notice => 2
    case Warning => 3
    case Error => 4
    case Critical => 5
    case Alert => 6
    case Emergency => 7
  }

  /** The levels the strategy writes: ERROR and everything more severe. */
  predicate IsReported(level: LogLevel)
  {
    Severity(level) >= Severity(Error)
  }

  /** The bracketed label printed for a level, when that level is written at all. */
  function Label(level: LogLevel): (r: Option<string>)
    ensures r.Some? <==> IsReported(level)
    ensures r.Some? ==> 2 < |r.value| && r.value[0] == '[' && r.value[|r.value| - 1] == ']'
  {
    match level
    case Debug => None
    case Info => None
    case Notice => None
    case Warning => None
    case Error => Some("[ERROR]")
    case Critical => Some("[CRITICAL]")
    case Alert => Some("[ALERT]")
    case Emergency => Some("[EMERGENCY]")
  }

  /** One call of console.error: the formatted text and the arguments passed after it. */
  datatype ErrorLine = ErrorLine(text: string, args: seq<string>)

  /** What one call of log writes: nothing, or a single line. */
  function Emission(level: LogLevel, message: string, args: seq<string>, timestamp: string): (r: seq<ErrorLine>)
    ensures |r| <= 1
    ensures |r| == 1 <==> IsReported(level)
  {
    match Label(level)
    case None => []
    case Some(tag) => [ErrorLine(timestamp + " " + tag + " " + message, args)]
  }

  /** A single call of log, as recorded by a caller. */
  datatype LogCall = LogCall(level: LogLevel, message: string, args: seq<string>, timestamp: string)

  /** Everything a sequence of calls writes, in call order. */
  function SessionOutput(calls: seq<LogCall>): seq<ErrorLine>
  {
    if calls == [] then []
    else
      var c := calls[|calls| - 1];
      SessionOutput(calls[..|calls| - 1]) + Emission(c.level, c.message, c.args, c.timestamp)
  }

  /** How many of the calls are at a reported level. */
  function ReportedCount(calls: seq<LogCall>): nat
  {
    if calls == [] then 0
    else ReportedCount(calls[..|calls| - 1]) + (if IsReported(calls[|calls| - 1].level) then 1 else 0)
  }

  /** The error console the strategy writes to, as the list of lines written so far. */
  class ErrorConsole {
    var lines: seq<ErrorLine>

    constructor()
      ensures lines == []
    {
      lines := [];
    }

    /** Logs one message; the clock reading is a parameter. */
    method Log(level: LogLevel, message: string, args: seq<string>, timestamp: string)
      modifies this
      ensures lines == old(lines) + Emission(level, message, args, timestamp)
    {
      match level {
        case Debug =>
        case Info =>
        case Notice =>
        case Warning =>
        case Error =>
          lines := lines + [ErrorLine(timestamp + " " + "[ERROR]" + " " + message, args)];
        case Critical =>
          lines := lines + [ErrorLine(timestamp + " " + "[CRITICAL]" + " " + message, args)];
        case Alert =>
          lines := lines + [ErrorLine(timestamp + " " + "[ALERT]" + " " + message, args)];
        case Emergency =>
          lines := lines + [ErrorLine(timestamp + " " + "[EMERGENCY]" + " " + message, args)];
      }
    }
  }

  /** A written line starts with the timestamp, carries the level's label, ends with the message and keeps the arguments. */
  lemma EmittedLineLayout(level: LogLevel, message: string, args: seq<string>, timestamp: string)
    requires IsReported(level)
    ensures var out := Emission(level, message, args, timestamp);
      out[0].args == args &&
      out[0].text == timestamp + " " + Label(level).value + " " + message &&
      out[0].text[..|timestamp|] == timestamp &&
      out[0].text[|out[0].text| - |message|..] == message
  {
  }

  /** No label contains a space, so the label is the whole second field of a line. */
  lemma LabelHasNoSpace(level: LogLevel)
    requires IsReported(level)
    ensures forall k :: 0 <= k < |Label(level).value| ==> Label(level).value[k] != ' '
  {
  }

  /** Different levels have different labels. */
  lemma LabelsDistinct(l1: LogLevel, l2: LogLevel)
    requires IsReported(l1) && IsReported(l2) && Label(l1) == Label(l2)
    ensures l1 == l2
  {
  }

  /** A line "x y" whose first field x has no space splits back into x and y at its first space. */
  lemma SplitAtFirstSpace(x1: string, y1: string, x2: string, y2: string)
    requires forall k :: 0 <= k < |x1| ==> x1[k] != ' '
    requires forall k :: 0 <= k < |x2| ==> x2[k] != ' '
    requires x1 + " " + y1 == x2 + " " + y2
    ensures x1 == x2 && y1 == y2
  {
    var r := x1 + " " + y1;
    assert r[|x1|] == ' ' && r[|x2|] == ' ';
    if |x1| != |x2| {
      assert false;
    }
    assert x1 == r[..|x1|] == x2;
    assert y1 == r[|x1| + 1..] == y2;
  }

  /**
   * Lines written at the same instant determine the call that wrote them:
   * the level and the message can be read back from the text.
   */
  lemma LineDeterminesCall(l1: LogLevel, m1: string, a1: seq<string>, l2: LogLevel, m2: string, a2: seq<string>, timestamp: string)
    requires IsReported(l1) && IsReported(l2)
    requires Emission(l1, m1, a1, timestamp) == Emission(l2, m2, a2, timestamp)
    ensures l1 == l2 && m1 == m2 && a1 == a2
  {
    var lab1, lab2 := Label(l1).value, Label(l2).value;
    var t1 := timestamp + " " + lab1 + " " + m1;
    var t2 := timestamp + " " + lab2 + " " + m2;
    assert Emission(l1, m1, a1, timestamp) == [ErrorLine(t1, a1)];
    assert Emission(l2, m2, a2, timestamp) == [ErrorLine(t2, a2)];
    var n := |timestamp| + 1;
    var r1 := lab1 + " " + m1;
    var r2 := lab2 + " " + m2;
    assert t1 == (timestamp + " ") + r1;
    assert t2 == (timestamp + " ") + r2;
    assert r1 == t1[n..] == t2[n..] == r2;
    LabelHasNoSpace(l1);
    LabelHasNoSpace(l2);
    SplitAtFirstSpace(lab1, m1, lab2, m2);
    LabelsDistinct(l1, l2);
  }

  /** Over a whole session, the console receives one line per call at a reported level. */
  lemma {:induction false} SessionLength(calls: seq<LogCall>)
    ensures |SessionOutput(calls)| == ReportedCount(calls)
  {
    if calls != [] {
      var c := calls[|calls| - 1];
      SessionLength(calls[..|calls| - 1]);
    }
  }

  /** A session's output is the output of its first part followed by that of its second. */
  lemma {:induction false} SessionAppend(a: seq<LogCall>, b: seq<LogCall>)
    ensures SessionOutput(a + b) == SessionOutput(a) + SessionOutput(b)
    decreases |b|
  {
    if b == [] {
      assert a + b == a;
    } else {
      var b' := b[..|b| - 1];
      assert (a + b)[..|a + b| - 1] == a + b';
      assert (a + b)[|a + b| - 1] == b[|b| - 1];
      SessionAppend(a, b');
    }
  }

  /** A session made only of calls below ERROR writes nothing at all. */
  lemma {:induction false} QuietSession(calls: seq<LogCall>)
    requires forall i :: 0 <= i < |calls| ==> !IsReported(calls[i].level)
    ensures SessionOutput(calls) == []
  {
    if calls != [] {
      var c := calls[|calls| - 1];
      QuietSession(calls[..|calls| - 1]);
    }
  }

  /** What a single call writes. */
  function CallOutput(c: LogCall): seq<ErrorLine>
  {
    Emission(c.level, c.message, c.args, c.timestamp)
  }

  /** Four calls write what each writes, in call order. */
  lemma SessionOfFour(c0: LogCall, c1: LogCall, c2: LogCall, c3: LogCall)
    ensures SessionOutput([c0, c1, c2, c3]) == CallOutput(c0) + CallOutput(c1) + CallOutput(c2) + CallOutput(c3)
  {
    var s4 := [c0, c1, c2, c3];
    assert s4[..3] == [c0, c1, c2];
    assert [c0, c1, c2][..2] == [c0, c1];
    assert [c0, c1][..1] == [c0];
    assert [c0][..0] == [];
    assert SessionOutput([c0]) == CallOutput(c0);
    assert SessionOutput([c0, c1]) == SessionOutput([c0]) + CallOutput(c1);
    assert SessionOutput([c0, c1, c2]) == SessionOutput([c0, c1]) + CallOutput(c2);
    assert SessionOutput(s4) == SessionOutput([c0, c1, c2]) + CallOutput(c3);
  }

  /**
   * One call per level, from DEBUG to EMERGENCY, writes four lines: the ERROR,
   * CRITICAL, ALERT and EMERGENCY messages, in that order.
   */
  lemma EveryLevelOnce(m: seq<string>, t: string)
    requires |m| == 8
    ensures var calls := [
        LogCall(Debug, m[0], [], t), LogCall(Info, m[1], [], t),
        LogCall(Notice, m[2], [], t), LogCall(Warning, m[3], [], t),
        LogCall(Error, m[4], [], t), LogCall(Critical, m[5], [], t),
        LogCall(Alert, m[6], [], t), LogCall(Emergency, m[7], [], t)];
      var out := SessionOutput(calls);
      |out| == 4 &&
      out == Emission(Error, m[4], [], t) + Emission(Critical, m[5], [], t) +
             Emission(Alert, m[6], [], t) + Emission(Emergency, m[7], [], t)
  {
    var low := [
        LogCall(Debug, m[0], [], t), LogCall(Info, m[1], [], t),
        LogCall(Notice, m[2], [], t), LogCall(Warning, m[3], [], t)];
    var high := [
        LogCall(Error, m[4], [], t), LogCall(Critical, m[5], [], t),
        LogCall(Alert, m[6], [], t), LogCall(Emergency, m[7], [], t)];
    SessionOfFour(low[0], low[1], low[2], low[3]);
    SessionOfFour(high[0], high[1], high[2], high[3]);
    SessionAppend(low, high);
    assert low + high == [
        LogCall(Debug, m[0], [], t), LogCall(Info, m[1], [], t),
        LogCall(Notice, m[2], [], t), LogCall(Warning, m[3], [], t),
        LogCall(Error, m[4], [], t), LogCall(Critical, m[5], [], t),
        LogCall(Alert, m[6], [], t), LogCall(Emergency, m[7], [], t)];
  }
}
