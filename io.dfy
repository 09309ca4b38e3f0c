/**
 * Serial and shared output helpers: the blocking line reader on the UART,
 * the output step of multiPrintf, and the guard that passes non-empty input
 * to the interpreter.
 */
module Io {
  import opened Util
  import opened CString
  import WebServer
  import AtlastTask

  /** The receive and transmit sides of the serial port. */
  class Uart {
    /** Bytes received and not yet read, in arrival order. */
    var rx: seq<char>
    /** Everything written to the port. */
    var tx: seq<char>

    constructor (input: seq<char>)
      ensures rx == input && tx == []
    {
      rx := input;
      tx := [];
    }

    /** Serial.read() once Serial.available() holds. */
    method Read() returns (c: char)
      requires rx != []
      modifies this
      ensures c == old(rx)[0] && rx == old(rx)[1..] && tx == old(tx)
    {
      c := rx[0];
      rx := rx[1..];
    }

    /** `while (Serial.available()) Serial.read();` */
    method Discard()
      modifies this
      ensures rx == [] && tx == old(tx)
    {
      while rx != []
        invariant tx == old(tx)
        decreases |rx|
      {
        var _ := Read();
      }
    }

    /** printf("%s", s). */
    method Write(s: seq<char>)
      modifies this
      ensures tx == old(tx) + s && rx == old(rx)
    {
      tx := tx + s;
    }
  }

  predicate IsTerminator(c: char)
  {
    c == '\n' || c == '\r'
  }

  /** The index of the first line terminator in `s`, or `|s|` if there is none. */
  function FirstTerminator(s: seq<char>): (k: nat)
    ensures k <= |s|
    ensures forall j :: 0 <= j < k ==> !IsTerminator(s[j])
    ensures k < |s| ==> IsTerminator(s[k])
  {
    if s == [] || IsTerminator(s[0]) then 0 else 1 + FirstTerminator(s[1..])
  }

  /**
   * serialReadLine: store bytes into `buf` until a newline or carriage return
   * or until `limit` bytes are stored; true iff a terminator came first, in
   * which case its slot holds a NUL. The rest of the received input is
   * discarded. The reader waits for input while none is available, so the
   * bytes given must be enough for it to finish.
   */
  method SerialReadLine(uart: Uart, buf: array<char>, limit: nat) returns (complete: bool)
    requires limit <= buf.Length
    requires FirstTerminator(uart.rx) < |uart.rx| || limit <= |uart.rx|
    modifies uart, buf
    ensures var k := FirstTerminator(old(uart.rx));
      complete == (k < limit) &&
      (complete ==> buf[..k] == old(uart.rx)[..k] && buf[k] == '\0' && CStr(buf[..]) == CStr(old(uart.rx)[..k])) &&
      (complete ==> forall i :: k < i < buf.Length ==> buf[i] == old(buf[i])) &&
      (!complete ==> buf[..limit] == old(uart.rx)[..limit]) &&
      (!complete ==> forall i :: limit <= i < buf.Length ==> buf[i] == old(buf[i]))
    ensures uart.rx == [] && uart.tx == old(uart.tx)
  {
    ghost var input := uart.rx;
    ghost var k := FirstTerminator(input);
    var len := 0;
    while len < limit
      invariant len <= limit && len <= k
      invariant uart.rx == input[len..] && uart.tx == old(uart.tx)
      invariant buf[..len] == input[..len]
      invariant forall i :: len <= i < buf.Length ==> buf[i] == old(buf[i])
    {
      var newByte := uart.Read();
      if newByte != '\n' && newByte != '\r' {
        buf[len] := newByte;
      } else {
        buf[len] := '\0';
        assert buf[..] == input[..len] + ['\0'] + buf[len + 1..];
        CStrCut(input[..len], buf[len + 1..]);
        uart.Discard();
        return true;
      }
      len := len + 1;
    }
    uart.Discard();
    return false;
  }

  /**
   * The output part of multiPrintf, given the text vsprintf formatted into its
   * 256-byte buffer: the string in that buffer goes to the serial port and to
   * the websocket output buffer, and the formatted length is returned.
   */
  method MultiPrintf(uart: Uart, ws: WebServer.CliBuffer, formatted: string) returns (length: int)
    requires |formatted| < PrintfBuffSize
    modifies uart, ws
    ensures uart.tx == old(uart.tx) + CStr(formatted) && uart.rx == old(uart.rx)
    ensures ws.View() == WebServer.Printed(old(ws.View()), CStr(formatted))
    ensures length == |formatted|
  {
    var buffer := CStr(formatted);
    uart.Write(buffer);
    ws.Append(buffer);
    return |formatted|;
  }

  /** incomingText: a non-empty input string becomes an interpreter command; an empty one is ignored. */
  method IncomingText(rd: AtlastTask.RunState, inputData: string)
    modifies rd
    ensures CStr(inputData) == [] ==> rd.View() == old(rd.View())
    ensures CStr(inputData) != [] ==> rd.View() == AtlastTask.Submitted(old(rd.View()), CStr(inputData))
  {
    if inputData != [] && inputData[0] != '\0' {
      rd.Command(CStr(inputData));
    }
  }
}
