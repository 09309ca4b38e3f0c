/**
 * The main loop's serial accumulator: readSerial collects received bytes into
 * the 256-byte inputString, `filled` counting the bytes of the incomplete
 * line, and reports a line once a newline arrives after at least one byte.
 */
module SerialMain {
  import opened CString
  import Io

  const InputSize: nat := 256

  /** Byte `j` of the input ends the line begun with `filled` bytes already stored. */
  predicate EndsLine(filled: nat, rx: seq<char>, j: nat)
  {
    j < |rx| && filled + j < InputSize && rx[j] == '\n' && filled + j > 0
  }

  /** Dropping the first input byte, with one more byte stored, shifts the line end by one. */
  lemma EndsLineShift(filled: nat, next: nat, rx: seq<char>, tail: seq<char>)
    requires next == filled + 1 && rx != [] && tail == rx[1..]
    ensures forall j: nat :: EndsLine(next, tail, j) ==> EndsLine(filled, rx, j + 1)
    ensures forall j: nat :: 0 < j && EndsLine(filled, rx, j) ==> EndsLine(filled + 1, rx[1..], j - 1)
  {
  }

  /** Whether readSerial, holding `filled` bytes, completes a line from input `rx`. */
  function Completes(filled: nat, rx: seq<char>): (r: bool)
    ensures r <==> exists j: nat :: EndsLine(filled, rx, j)
    decreases |rx|
  {
    if rx == [] || filled >= InputSize then
      assert forall j: nat :: !EndsLine(filled, rx, j);
      false
    else if rx[0] == '\n' && filled > 0 then
      assert EndsLine(filled, rx, 0);
      true
    else
      var r := Completes(filled + 1, rx[1..]);
      EndsLineShift(filled, filled + 1, rx, rx[1..]);
      assert !EndsLine(filled, rx, 0);
      assert r ==> exists j: nat :: EndsLine(filled, rx, j) by {
        if r {
          var j: nat :| EndsLine(filled + 1, rx[1..], j);
          assert EndsLine(filled, rx, j + 1);
        }
      }
      assert (exists j: nat :: EndsLine(filled, rx, j)) ==> r by {
        if exists j: nat :: EndsLine(filled, rx, j) {
          var j: nat :| EndsLine(filled, rx, j);
          assert j > 0 && EndsLine(filled + 1, rx[1..], j - 1);
        }
      }
      r
  }

  /**
   * How many input bytes readSerial reads: up to and including the first
   * newline that ends a line, or else until the input or the buffer runs out.
   * A newline read while the buffer is empty is an ordinary byte.
   */
  function Consumed(filled: nat, rx: seq<char>): (n: nat)
    ensures n <= |rx|
    ensures filled >= InputSize ==> n == 0
    ensures filled <= InputSize ==> filled + n <= InputSize
    ensures Completes(filled, rx) ==> n > 0 && EndsLine(filled, rx, n - 1)
    ensures forall j: nat :: 0 <= j < n - 1 ==> !EndsLine(filled, rx, j)
    ensures forall j: nat :: 0 <= j < n - 1 && rx[j] == '\n' ==> filled + j == 0
    ensures !Completes(filled, rx) && filled <= InputSize ==> n == |rx| || filled + n == InputSize
    decreases |rx|
  {
    if rx == [] || filled >= InputSize then 0
    else if rx[0] == '\n' && filled > 0 then 1
    else
      var n := Consumed(filled + 1, rx[1..]);
      EndsLineShift(filled, filled + 1, rx, rx[1..]);
      1 + n
  }

  /** A line of the buffer, ended by a NUL, is what the buffer denotes as a C string. */
  lemma LineStored(before: seq<char>, after: seq<char>, f: nat, line: seq<char>)
    requires |after| == |before| && f + |line| < |after|
    requires after[f..f + |line|] == line && after[f + |line|] == '\0'
    requires forall i :: 0 <= i < f ==> after[i] == before[i]
    ensures CStr(after) == CStr(before[..f] + line)
  {
    var k := f + |line|;
    CStrUpTo(after, k);
    assert after[..f] == before[..f];
    assert after[..k] == after[..f] + after[f..k];
  }

  /** inputString and filled. */
  class SerialInput {
    const inputString: array<char>
    var filled: nat

    ghost predicate Valid()
      reads this
    {
      inputString.Length == InputSize && filled <= InputSize
    }

    constructor ()
      ensures Valid() && filled == 0 && fresh(inputString)
    {
      inputString := new char[InputSize];
      filled := 0;
    }

    /**
     * readSerial: store available bytes at consecutive slots from `filled`;
     * on a newline after at least one byte, put a NUL in its slot, reset
     * `filled` and return true, leaving later input unread.
     */
    method ReadSerial(uart: Io.Uart) returns (complete: bool)
      requires Valid()
      modifies this, inputString, uart
      ensures Valid()
      ensures var f, n := old(filled), Consumed(old(filled), old(uart.rx));
        complete == Completes(f, old(uart.rx)) &&
        uart.rx == old(uart.rx)[n..] &&
        (complete ==> filled == 0 && inputString[f..f + n - 1] == old(uart.rx)[..n - 1] &&
                      inputString[f + n - 1] == '\0' &&
                      CStr(inputString[..]) == CStr(old(inputString[..f]) + old(uart.rx)[..n - 1])) &&
        (!complete ==> filled == f + n && inputString[f..f + n] == old(uart.rx)[..n]) &&
        (forall i :: 0 <= i < InputSize && !(f <= i < f + n) ==> inputString[i] == old(inputString[i]))
      ensures uart.tx == old(uart.tx)
    {
      ghost var f := filled;
      ghost var input := uart.rx;
      ghost var n := 0;
      complete := false;
      while uart.rx != [] && filled < InputSize
        invariant Valid() && filled == f + n && n <= |input|
        invariant uart.rx == input[n..] && uart.tx == old(uart.tx)
        invariant inputString[f..filled] == input[..n]
        invariant forall i :: 0 <= i < InputSize && !(f <= i < filled) ==> inputString[i] == old(inputString[i])
        invariant Consumed(f, input) == n + Consumed(filled, input[n..])
        invariant Completes(f, input) == Completes(filled, input[n..])
        decreases InputSize - filled
      {
        assert input[n..][1..] == input[n + 1..];
        complete := StoreByte(uart);
        if complete {
          LineStored(old(inputString[..]), inputString[..], f, input[..n]);
          return;
        }
        n := n + 1;
      }
    }

    /** One pass of readSerial's loop: store the next byte, or end the line on a newline after a byte. */
    method StoreByte(uart: Io.Uart) returns (ended: bool)
      requires Valid() && filled < InputSize && uart.rx != []
      modifies this, inputString, uart
      ensures Valid()
      ensures ended == (old(uart.rx)[0] == '\n' && old(filled) > 0)
      ensures uart.rx == old(uart.rx)[1..] && uart.tx == old(uart.tx)
      ensures inputString[..] == old(inputString[..])[old(filled) := if ended then '\0' else old(uart.rx)[0]]
      ensures filled == if ended then 0 else old(filled) + 1
    {
      var inChar := uart.Read();
      inputString[filled] := inChar;
      if inChar == '\n' && filled > 0 {
        inputString[filled] := '\0';
        filled := 0;
        return true;
      }
      filled := filled + 1;
      return false;
    }
  }
}
