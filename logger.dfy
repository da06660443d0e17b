/** The per-task log (internal/pkg/logger/logger.go): an in-memory list of
    formatted lines, mirrored to a file while its handle is open. */
module Logger {
  import opened Types

  /** time.Now().Format("2006-01-02 15:04:05") always yields 19 characters. */
  type Timestamp = s: string | |s| == 19 witness "2006-01-02 15:04:05"

  const InfoLevel := "INFO"
  const ErrorLevel := "ERROR"

  /** The line written for one call: "<timestamp> [<LEVEL>] <msg>". */
  function FormatLine(now: Timestamp, level: string, msg: string): string {
    now + " [" + level + "] " + msg
  }

  /** The parts of one log line. */
  datatype Entry = Entry(time: Timestamp, level: string, message: string)

  /** The first index of `c` in `s`. */
  function IndexOf(s: string, c: char): (r: Option<nat>)
    ensures r.None? <==> c !in s
    ensures r.Some? ==> r.value < |s| && s[r.value] == c && c !in s[..r.value]
  {
    if s == [] then None
    else if s[0] == c then Some(0)
    else match IndexOf(s[1..], c)
      case None => None
      case Some(k) =>
        assert s[..k + 1] == [s[0]] + s[1..][..k];
        Some(k + 1)
  }

  /** Reads a line back: the fixed-width timestamp, then " [", the level up
      to the first ']', then "] " and the message. */
  function ParseLine(line: string): Option<Entry> {
    if |line| < 21 || line[19..21] != " [" then None
    else match IndexOf(line[21..], ']')
      case None => None
      case Some(k) =>
        var close := 21 + k;
        if close + 1 < |line| && line[close + 1] == ' ' then
          Some(Entry(line[..19], line[21..close], line[close + 2..]))
        else None
  }

  /** Every line the logger writes can be read back into the timestamp, the
      level and the message it was made from, whatever the message says. */
  lemma ParseFormatLine(now: Timestamp, level: string, msg: string)
    requires ']' !in level
    ensures ParseLine(FormatLine(now, level, msg)) == Some(Entry(now, level, msg))
  {
    var line := FormatLine(now, level, msg);
    var rest := level + "] " + msg;
    assert line[19..21] == " [";
    assert line[21..] == rest;
    assert rest[|level|] == ']';
    var k := IndexOf(rest, ']').value;
    assert line[..19] == now;
    assert line[21..21 + k] == level;
    assert line[21 + k + 2..] == msg;
  }

  /** The lines a tail query returns: the last `tail` lines in their order
      when 0 < tail <= total, otherwise the whole buffer. */
  function TailLines(logs: seq<string>, tail: int): (r: seq<string>)
    ensures |r| == if 0 < tail <= |logs| then tail else |logs|
    ensures forall i :: 0 <= i < |r| ==> r[i] == logs[|logs| - |r| + i]
    ensures tail <= 0 || tail >= |logs| ==> r == logs
  {
    if tail <= 0 || tail > |logs| then logs else logs[|logs| - tail..]
  }

  class TaskLogger {
    /** The in-memory buffer, oldest line first. */
    var logs: seq<string>
    /** Whether the file handle is still set (Close clears it). */
    var fileOpen: bool
    /** What this logger has written through its file handle. */
    var written: string
    const filePath: string

    constructor (filePath: string)
      ensures this.filePath == filePath
      ensures logs == [] && fileOpen && written == ""
    {
      this.filePath := filePath;
      logs := [];
      fileOpen := true;
      written := "";
    }

    /** Appends one line; the file receives it, newline-terminated, only while
        the handle is open. */
    method Log(level: string, now: Timestamp, msg: string)
      modifies this`logs, this`written
      ensures logs == old(logs) + [FormatLine(now, level, msg)]
      ensures written == if fileOpen then old(written) + FormatLine(now, level, msg) + "\n"
                         else old(written)
    {
      var line := FormatLine(now, level, msg);
      logs := logs + [line];
      if fileOpen {
        written := written + line + "\n";
      }
    }

    method Info(now: Timestamp, msg: string)
      modifies this`logs, this`written
      ensures logs == old(logs) + [FormatLine(now, InfoLevel, msg)]
      ensures written == if fileOpen then old(written) + FormatLine(now, InfoLevel, msg) + "\n"
                         else old(written)
    {
      Log(InfoLevel, now, msg);
    }

    method Error(now: Timestamp, msg: string)
      modifies this`logs, this`written
      ensures logs == old(logs) + [FormatLine(now, ErrorLevel, msg)]
      ensures written == if fileOpen then old(written) + FormatLine(now, ErrorLevel, msg) + "\n"
                         else old(written)
    {
      Log(ErrorLevel, now, msg);
    }

    /** A read-only tail query; `total` is always the full line count. */
    method GetLogs(tail: int) returns (lines: seq<string>, total: int)
      ensures total == |logs|
      ensures lines == TailLines(logs, tail)
    {
      total := |logs|;
      if tail <= 0 || tail > total {
        return logs, total;
      }
      lines := logs[total - tail..];
    }

    /** Releases the file handle; on a closed logger it changes nothing. */
    method Close()
      modifies this`fileOpen
      ensures !fileOpen
    {
      if fileOpen {
        fileOpen := false;
      }
    }
  }

  /** NewTaskLogger: opening the file either fails (its error is returned) or
      gives an empty logger holding an open handle. */
  method NewTaskLogger(filePath: string, openError: Option<string>) returns (r: Result<TaskLogger>)
    ensures openError.Some? ==> r == Failure(openError.value)
    ensures openError.None? ==> r.Success? && fresh(r.value) && r.value.filePath == filePath &&
                                r.value.logs == [] && r.value.fileOpen && r.value.written == ""
  {
    if openError.Some? {
      return Failure(openError.value);
    }
    var l := new TaskLogger(filePath);
    r := Success(l);
  }
}
