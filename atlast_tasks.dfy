/**
 * The earlier interpreter worker that runs a file line by line.
 *
 * The start handshake is the same as the queue worker's; the run reads each
 * line into a 1000-character code buffer, echoes it (at most 251 characters
 * of it, so that the echo fits multiPrintf's buffer), evaluates it and prints
 * "ok", and stops on a kill (after evaluating "ABORT") or on a line that
 * fills the buffer. The file is its sequence of lines, the evaluator a log.
 */
module AtlastTasks {
  import opened Util
  import opened CString

  const CodeBuffSize: nat := 1000
  const Abort: string := "ABORT"

  /** The longest line whose "<> %s\n" echo fits that buffer with its NUL. */
  const EchoLimit: nat := 251

  /** What the runner prints through multiPrintf. */
  datatype Msg =
    | LineEcho(line: string)    // "<> %.251s\n"
    | Ok                        // "\n  ok\n"
    | TooLong(filename: string) // "ATLAST RUNTIME ERROR: Too long code line in %s. Exiting.\n"

  /** What "<> %s\n" formats for the string `s`. */
  function EchoFormat(s: string): string
  {
    "<> " + s + "\n"
  }

  /**
   * The echo as written: vsprintf formats "<> %s\n" into the 256-byte buffer
   * with no bound, so a line whose echo does not fit with its NUL writes past
   * the buffer (None: undefined behaviour); otherwise the echo is printed.
   */
  function EchoAsWritten(line: string): (r: Option<string>)
    ensures r.Some? <==> |CStr(line)| <= EchoLimit
    ensures r.Some? ==> r.value == EchoFormat(CStr(line))
  {
    var formatted := EchoFormat(CStr(line));
    if |formatted| < PrintfBuffSize then Some(formatted) else None
  }

  /** A 300-character line fits the code buffer, yet its echo overflows the printf buffer. */
  lemma EchoOverflows()
    ensures var line := seq(300, _ => 'a');
      |line| < CodeBuffSize && EchoAsWritten(line) == None
  {
    var line := seq(300, _ => 'a');
    assert '\0' !in line;
    CStrPlain(line);
  }

  /** The corrected echo, "<> %.251s\n": the line bounded to what fits beside the format's 4 characters. */
  function EchoLine(s: string): string
  {
    Fitted(s, |EchoFormat("")|)
  }

  /** Why a run left its line loop. */
  datatype Ending = EndOfFile | Aborted | LineTooLong

  /** The index of the first line that does not fit the code buffer, or the line count. */
  function FirstLong(lines: seq<string>): (k: nat)
    ensures k <= |lines|
    ensures forall j :: 0 <= j < k ==> |lines[j]| < CodeBuffSize
    ensures k < |lines| ==> |lines[k]| >= CodeBuffSize
  {
    if lines == [] || |lines[0]| >= CodeBuffSize then 0 else 1 + FirstLong(lines[1..])
  }

  /** The check index at which a kill is seen: 0 if the flag is already set. */
  function KillPoint(killFlag: bool, killAt: nat): nat
  {
    if killFlag then 0 else killAt
  }

  /** The number of lines a run evaluates. */
  function Evaluable(lines: seq<string>, kill: nat): nat
  {
    Min(FirstLong(lines), kill)
  }

  /** How a run ends: at the end of the file, on the kill, or on the first over-long line. */
  function EndingOf(lines: seq<string>, kill: nat): Ending
  {
    if Evaluable(lines, kill) == |lines| then EndOfFile
    else if kill <= FirstLong(lines) then Aborted
    else LineTooLong
  }

  /** The commands the evaluator receives for the given lines. */
  function Commands(lines: seq<string>): seq<string>
  {
    if lines == [] then [] else Commands(lines[..|lines| - 1]) + [CStr(lines[|lines| - 1])]
  }

  /** What is printed for the given evaluated lines: the echo and the "ok" of each. */
  function Transcript(lines: seq<string>): seq<Msg>
  {
    if lines == [] then [] else Transcript(lines[..|lines| - 1]) + [LineEcho(EchoLine(CStr(lines[|lines| - 1]))), Ok]
  }

  /** Where the line loop stops: on the kill, on an over-long line, or at the end of the file. */
  lemma StopsAt(lines: seq<string>, kill: nat, n: nat)
    requires n <= FirstLong(lines) && n <= kill && n <= |lines|
    ensures n == kill && n < |lines| ==> Evaluable(lines, kill) == n && EndingOf(lines, kill) == Aborted
    ensures n < kill && n < |lines| && |lines[n]| >= CodeBuffSize ==>
      Evaluable(lines, kill) == n && EndingOf(lines, kill) == LineTooLong
    ensures n == |lines| ==> Evaluable(lines, kill) == n && EndingOf(lines, kill) == EndOfFile
  {
  }

  /** Running one more line extends the commands and the transcript by that line's. */
  lemma NextLine(lines: seq<string>, n: nat)
    requires n < |lines|
    ensures Commands(lines[..n + 1]) == Commands(lines[..n]) + [CStr(lines[n])]
    ensures Transcript(lines[..n + 1]) == Transcript(lines[..n]) + [LineEcho(EchoLine(CStr(lines[n]))), Ok]
  {
    assert lines[..n + 1][..n] == lines[..n];
  }

  /**
   * Every line before the stopping point fits the buffer and is evaluated;
   * when the run ends on an over-long line, no kill came first; when it is
   * aborted, the kill came no later than the first over-long line.
   */
  lemma EndingMeaning(lines: seq<string>, kill: nat)
    ensures var n := Evaluable(lines, kill);
      n <= |lines| && (forall j :: 0 <= j < n ==> |lines[j]| < CodeBuffSize) &&
      (EndingOf(lines, kill) == LineTooLong ==> n < kill && |lines[n]| >= CodeBuffSize) &&
      (EndingOf(lines, kill) == Aborted ==> n == kill < |lines|) &&
      (EndingOf(lines, kill) == EndOfFile ==> n == |lines|)
  {
  }

  /** `rd` of the file runner. */
  class FileRun {
    var filename: string
    var fileOpen: bool
    const codeBuff: array<char>
    var startFlag: bool
    var killFlag: bool
    var isRunning: bool
    var evaluated: seq<string>
    var out: seq<Msg>

    ghost predicate Valid()
      reads this
    {
      codeBuff.Length == CodeBuffSize
    }

    constructor (name: string)
      ensures Valid() && fresh(codeBuff)
      ensures filename == name && !fileOpen && !startFlag && !killFlag && !isRunning
      ensures evaluated == [] && out == []
    {
      filename := name;
      fileOpen := false;
      codeBuff := new char[CodeBuffSize];
      startFlag, killFlag, isRunning := false, false, false;
      evaluated, out := [], [];
    }

    /** startAtlastFromFile: true iff a start was requested; then the run begins. */
    method StartFromFile() returns (started: bool)
      modifies this
      ensures started == old(startFlag) && !startFlag
      ensures isRunning == (old(isRunning) || started)
      ensures killFlag == old(killFlag) && filename == old(filename) && fileOpen == old(fileOpen)
      ensures evaluated == old(evaluated) && out == old(out)
    {
      if startFlag {
        startFlag := false;
        isRunning := true;
        return true;
      } else {
        return false;
      }
    }

    /** resetAtlastFromFile: close the file and clear the running and kill flags. */
    method ResetFromFile()
      modifies this
      ensures !fileOpen && !isRunning && !killFlag
      ensures startFlag == old(startFlag) && filename == old(filename)
      ensures evaluated == old(evaluated) && out == old(out)
    {
      fileOpen := false;
      isRunning := false;
      killFlag := false;
    }

    /** readBytesUntil('\n', codeBuff, 1000) on a line: store at most 1000 of its characters. */
    method ReadBytesUntil(line: string) returns (len: nat)
      requires Valid()
      modifies codeBuff
      ensures len == Min(|line|, CodeBuffSize)
      ensures codeBuff[..len] == line[..len]
      ensures codeBuff[len..] == old(codeBuff[len..])
    {
      len := 0;
      while len < CodeBuffSize && len < |line|
        invariant len <= CodeBuffSize && len <= |line|
        invariant codeBuff[..len] == line[..len]
        invariant codeBuff[len..] == old(codeBuff[len..])
      {
        codeBuff[len] := line[len];
        len := len + 1;
      }
    }

    /**
     * The body of the line loop: read a line; if it fits, terminate it, echo
     * it, evaluate it and print "ok"; otherwise print the runtime error.
     */
    method RunLine(line: string) returns (fits: bool)
      requires Valid()
      modifies this, codeBuff
      ensures fits == (|line| < CodeBuffSize)
      ensures fits ==> evaluated == old(evaluated) + [CStr(line)] && out == old(out) + [LineEcho(EchoLine(CStr(line))), Ok]
      ensures !fits ==> evaluated == old(evaluated) && out == old(out) + [TooLong(filename)]
      ensures filename == old(filename) && fileOpen == old(fileOpen)
      ensures startFlag == old(startFlag) && killFlag == old(killFlag) && isRunning == old(isRunning)
    {
      var len := ReadBytesUntil(line);
      if len < CodeBuffSize {
        codeBuff[len] := '\0';
        assert codeBuff[..len + 1] == line + ['\0'];
        CStrTerminated(line);
        var text := CStr(codeBuff[..len + 1]);
        out := out + [LineEcho(EchoLine(text))];
        evaluated := evaluated + [text];
        out := out + [Ok];
        return true;
      } else {
        out := out + [TooLong(filename)];
        return false;
      }
    }

    /** Line `n` of a run whose first `n` lines have been run. */
    method RunNext(lines: seq<string>, n: nat, ghost evaluated0: seq<string>, ghost out0: seq<Msg>) returns (fits: bool)
      requires Valid() && n < |lines|
      requires evaluated == evaluated0 + Commands(lines[..n]) && out == out0 + Transcript(lines[..n])
      modifies this, codeBuff
      ensures fits == (|lines[n]| < CodeBuffSize)
      ensures fits ==> evaluated == evaluated0 + Commands(lines[..n + 1]) && out == out0 + Transcript(lines[..n + 1])
      ensures !fits ==> evaluated == evaluated0 + Commands(lines[..n]) && out == out0 + Transcript(lines[..n]) + [TooLong(filename)]
      ensures filename == old(filename) && fileOpen == old(fileOpen)
      ensures startFlag == old(startFlag) && killFlag == old(killFlag) && isRunning == old(isRunning)
    {
      fits := RunLine(lines[n]);
      NextLine(lines, n);
    }

    /**
     * The line loop of atlastFromFile. Another task's kill lands just before
     * the check of line `killAt` (a flag already set is seen at once).
     * Returns the number of lines evaluated and why the loop ended.
     */
    method RunLines(lines: seq<string>, killAt: nat) returns (n: nat, ending: Ending)
      requires Valid()
      modifies this, codeBuff
      ensures var kill := KillPoint(old(killFlag), killAt);
        n == Evaluable(lines, kill) && ending == EndingOf(lines, kill)
      ensures evaluated == old(evaluated) + Commands(lines[..n]) + (if ending == Aborted then [Abort] else [])
      ensures out == old(out) + Transcript(lines[..n]) + (if ending == LineTooLong then [TooLong(filename)] else [])
      ensures killFlag == (old(killFlag) || ending == Aborted)
      ensures fileOpen && filename == old(filename)
      ensures startFlag == old(startFlag) && isRunning == old(isRunning)
    {
      ghost var kill := KillPoint(killFlag, killAt);
      fileOpen := true;
      n, ending := 0, EndOfFile;
      while n < |lines|
        invariant n <= FirstLong(lines) && n <= kill
        invariant killFlag == old(killFlag) && (killFlag ==> n == 0)
        invariant evaluated == old(evaluated) + Commands(lines[..n])
        invariant out == old(out) + Transcript(lines[..n])
        invariant ending == EndOfFile
        invariant fileOpen && filename == old(filename)
        invariant startFlag == old(startFlag) && isRunning == old(isRunning)
      {
        if n == killAt {
          killFlag := true;
        }
        if killFlag {
          assert n == kill;
          evaluated := evaluated + [Abort];
          ending := Aborted;
          break;
        }
        var fits := RunNext(lines, n, old(evaluated), old(out));
        if !fits {
          assert n < kill;
          ending := LineTooLong;
          break;
        }
        n := n + 1;
      }
      StopsAt(lines, kill, n);
      assert n == |lines| ==> lines[..n] == lines;
    }

    /**
     * One pass of atlastFromFile's outer loop: poll the start flag and, if it
     * was set, open the file, run its lines and reset.
     */
    method Step(lines: seq<string>, killAt: nat) returns (started: bool, n: nat, ending: Ending)
      requires Valid()
      modifies this, codeBuff
      ensures started == old(startFlag) && !startFlag
      ensures !started ==> (isRunning == old(isRunning) && killFlag == old(killFlag) && fileOpen == old(fileOpen)
        && evaluated == old(evaluated) && out == old(out))
      ensures started ==> var kill := KillPoint(old(killFlag), killAt);
        n == Evaluable(lines, kill) && ending == EndingOf(lines, kill) &&
        evaluated == old(evaluated) + Commands(lines[..n]) + (if ending == Aborted then [Abort] else []) &&
        out == old(out) + Transcript(lines[..n]) + (if ending == LineTooLong then [TooLong(filename)] else [])
      ensures started ==> !isRunning && !killFlag && !fileOpen
      ensures filename == old(filename)
    {
      n, ending := 0, EndOfFile;
      started := StartFromFile();
      if !started {
        return;
      }
      n, ending := RunLines(lines, killAt);
      ResetFromFile();
    }
  }
}
