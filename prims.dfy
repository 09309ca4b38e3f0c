/**
 * The firmware's own ATLAST primitives: their effect on the interpreter's
 * data stack and the hardware calls they make, and the table that registers
 * them.
 *
 * A stack item is a 32-bit `long`; the stack is a sequence with its top at
 * the end (S0 is the last item, S1 the one below it). The underflow and
 * overflow checks `Sl` and `So` end a primitive with an error outcome and
 * leave the stack as it is at that point. Hardware and clock calls are
 * recorded in a log; the values they return are parameters.
 */
module Prims {
  import opened Util

  const Modulus32: int := 0x1_0000_0000
  const MinLong: int := -0x8000_0000
  const MaxLong: int := 0x7fff_ffff

  type U32 = x: int | 0 <= x < 0x1_0000_0000
  type Byte = x: int | 0 <= x < 256

  predicate IsLong(x: int)
  {
    MinLong <= x <= MaxLong
  }

  /** Conversion to a 32-bit signed integer: the value congruent to `x` modulo 2^32 in range. */
  function ToLong(x: int): (r: int)
    ensures IsLong(r) && (x - r) % Modulus32 == 0
    ensures IsLong(x) ==> r == x
  {
    var m := x % Modulus32;
    if m > MaxLong then m - Modulus32 else m
  }

  /** Conversion to a 32-bit `size_t`. */
  function ToSize(x: int): (r: U32)
    ensures (x - r) % Modulus32 == 0
    ensures 0 <= x < Modulus32 ==> r == x
  {
    x % Modulus32
  }

  /** Conversion to `uint8_t`: the least byte. */
  function ToByte(x: int): (r: Byte)
    ensures (x - r) % 256 == 0
    ensures 0 <= x < 256 ==> r == x
  {
    x % 256
  }

  /** C integer division, which truncates toward zero. */
  function TruncDiv(a: int, b: int): (q: int)
    requires b > 0
    ensures a >= 0 ==> q * b <= a < (q + 1) * b
    ensures a < 0 ==> (q - 1) * b < a <= q * b
  {
    if a >= 0 then a / b else -((-a) / b)
  }

  /** data[i] = (uint8_t) of the i-th item from the top, for the top `amount` items. */
  function TopBytes(s: seq<int>, amount: nat): (data: seq<Byte>)
    requires amount <= |s|
    ensures |data| == amount
    ensures forall i :: 0 <= i < amount ==> data[i] == ToByte(s[|s| - 1 - i])
  {
    if amount == 0 then [] else TopBytes(s, amount - 1) + [ToByte(s[|s| - amount])]
  }

  /** The items pushed by `for (i = amount - 1; i >= 0; i--) Push = data[i];`, bottom first. */
  function PushedReversed(data: seq<Byte>): (r: seq<int>)
    ensures |r| == |data|
    ensures forall i :: 0 <= i < |data| ==> r[|r| - 1 - i] == data[i]
  {
    if data == [] then [] else PushedReversed(data[1..]) + [data[0]]
  }

  /**
   * The order contract of I2CREAD and I2CWRITE: bytes pushed by I2CREAD are
   * popped by I2CWRITE's loop back in the order they were received.
   */
  lemma ReadThenWrite(s: seq<int>, data: seq<Byte>)
    ensures var t := s + PushedReversed(data);
      |data| <= |t| && TopBytes(t, |data|) == data && t[..|s|] == s
  {
    var t := s + PushedReversed(data);
    var r := PushedReversed(data);
    forall i | 0 <= i < |data|
      ensures TopBytes(t, |data|)[i] == data[i]
    {
      assert t[|t| - 1 - i] == r[|r| - 1 - i];
    }
  }

  datatype Status = Done | Underflow | Overflow

  datatype HwCall =
    | PinMode(pin: int, mode: int)
    | DigitalWrite(pin: int, value: int)
    | DigitalRead(pin: int)
    | Delay(ms: int)
    | ScanI2c
    | WriteI2c(address: Byte, data: seq<Byte>)
    | ReadI2c(address: Byte, amount: U32)

  /** The interpreter's data stack and the hardware log. */
  class Forth {
    var stack: seq<int>
    const capacity: nat
    var hw: seq<HwCall>

    ghost predicate Valid()
      reads this
    {
      |stack| <= capacity <= MaxLong && forall i :: 0 <= i < |stack| ==> IsLong(stack[i])
    }

    constructor (size: nat)
      requires size <= MaxLong
      ensures Valid() && capacity == size && stack == [] && hw == []
    {
      capacity := size;
      stack, hw := [], [];
    }

    function S0(): int
      reads this
      requires |stack| >= 1
    {
      stack[|stack| - 1]
    }

    function S1(): int
      reads this
      requires |stack| >= 2
    {
      stack[|stack| - 2]
    }

    /** P_pinm: [pin] [mode] -> . */
    method PinM() returns (st: Status)
      requires Valid()
      modifies this
      ensures Valid()
      ensures st == (if |old(stack)| >= 2 then Done else Underflow)
      ensures st == Done ==>
        stack == old(stack)[..|old(stack)| - 2] && hw == old(hw) + [PinMode(old(S1()), old(S0()))]
      ensures st != Done ==> stack == old(stack) && hw == old(hw)
    {
      if |stack| < 2 {
        return Underflow;
      }
      hw := hw + [PinMode(S1(), S0())];
      stack := stack[..|stack| - 2];
      return Done;
    }

    /** P_pinw: [pin] [value] -> . */
    method PinW() returns (st: Status)
      requires Valid()
      modifies this
      ensures Valid()
      ensures st == (if |old(stack)| >= 2 then Done else Underflow)
      ensures st == Done ==>
        stack == old(stack)[..|old(stack)| - 2] && hw == old(hw) + [DigitalWrite(old(S1()), old(S0()))]
      ensures st != Done ==> stack == old(stack) && hw == old(hw)
    {
      if |stack| < 2 {
        return Underflow;
      }
      hw := hw + [DigitalWrite(S1(), S0())];
      stack := stack[..|stack| - 2];
      return Done;
    }

    /** P_pinr: [pin] -> [value]; `level` is what digitalRead returns. */
    method PinR(level: int) returns (st: Status)
      requires Valid()
      modifies this
      ensures Valid()
      ensures st == (if |old(stack)| >= 1 then Done else Underflow)
      ensures st == Done ==>
        stack == old(stack)[..|old(stack)| - 1] + [ToLong(level)] && hw == old(hw) + [DigitalRead(old(S0()))]
      ensures st != Done ==> stack == old(stack) && hw == old(hw)
    {
      if |stack| < 1 {
        return Underflow;
      }
      hw := hw + [DigitalRead(S0())];
      stack := stack[..|stack| - 1] + [ToLong(level)];
      return Done;
    }

    /** P_delay_ms: [interval] -> ; a negative interval is not passed to delay. */
    method DelayMs() returns (st: Status)
      requires Valid()
      modifies this
      ensures Valid()
      ensures st == (if |old(stack)| >= 1 then Done else Underflow)
      ensures st == Done ==> (stack == old(stack)[..|old(stack)| - 1] &&
        hw == old(hw) + (if old(S0()) >= 0 then [Delay(old(S0()))] else []))
      ensures st != Done ==> stack == old(stack) && hw == old(hw)
    {
      if |stack| < 1 {
        return Underflow;
      }
      if S0() >= 0 {
        hw := hw + [Delay(S0())];
      }
      stack := stack[..|stack| - 1];
      return Done;
    }

    /** `So(1); Push = value;` */
    method PushOne(value: int) returns (st: Status)
      requires Valid()
      modifies this
      ensures Valid()
      ensures st == (if |old(stack)| < capacity then Done else Overflow)
      ensures stack == old(stack) + (if st == Done then [ToLong(value)] else [])
      ensures hw == old(hw)
    {
      if |stack| + 1 > capacity {
        return Overflow;
      }
      stack := stack + [ToLong(value)];
      return Done;
    }

    /** P_uptime_ms: -> [ticks], the 32-bit tick count read as a long. */
    method UptimeMs(ticks: U32) returns (st: Status)
      requires Valid()
      modifies this
      ensures Valid()
      ensures st == (if |old(stack)| < capacity then Done else Overflow)
      ensures stack == old(stack) + (if st == Done then [ToLong(ticks)] else []) && hw == old(hw)
    {
      st := PushOne(ticks);
    }

    /** P_uptime_s: -> [seconds]; the microsecond timer divided by 10^6, kept as an int32_t. */
    method UptimeS(micros: int) returns (st: Status)
      requires Valid()
      modifies this
      ensures Valid()
      ensures st == (if |old(stack)| < capacity then Done else Overflow)
      ensures stack == old(stack) + (if st == Done then [ToLong(TruncDiv(micros, 1000000))] else [])
      ensures hw == old(hw)
    {
      var timeS := ToLong(TruncDiv(micros, 1000000));
      st := PushOne(timeS);
    }

    /** P_fssize: -> [total bytes]. */
    method FsSize(total: U32, used: U32) returns (st: Status)
      requires Valid()
      modifies this
      ensures Valid()
      ensures st == (if |old(stack)| < capacity then Done else Overflow)
      ensures stack == old(stack) + (if st == Done then [ToLong(total)] else []) && hw == old(hw)
    {
      st := PushOne(total);
    }

    /** P_fsused: -> [used bytes]. */
    method FsUsed(total: U32, used: U32) returns (st: Status)
      requires Valid()
      modifies this
      ensures Valid()
      ensures st == (if |old(stack)| < capacity then Done else Overflow)
      ensures stack == old(stack) + (if st == Done then [ToLong(used)] else []) && hw == old(hw)
    {
      st := PushOne(used);
    }

    /** P_fsfree: -> [total - used], a size_t difference. */
    method FsFree(total: U32, used: U32) returns (st: Status)
      requires Valid()
      modifies this
      ensures Valid()
      ensures st == (if |old(stack)| < capacity then Done else Overflow)
      ensures stack == old(stack) + (if st == Done then [ToLong(ToSize(total - used))] else [])
      ensures hw == old(hw)
    {
      var freeBytes := ToSize(total - used);
      st := PushOne(freeBytes);
    }

    /** P_i2cscan: prints the responding addresses; the stack is untouched. */
    method I2cScan() returns (st: Status)
      modifies this
      ensures st == Done && stack == old(stack) && hw == old(hw) + [ScanI2c]
    {
      hw := hw + [ScanI2c];
      return Done;
    }

    /**
     * P_i2cwrite: [byte]...[byte] [amount] [address] -> [error]. Address and
     * amount are popped before the second underflow check, so a failed check
     * leaves them popped. `result` is what writeI2C returns.
     */
    method I2cWrite(result: int) returns (st: Status)
      requires Valid()
      modifies this
      ensures Valid()
      ensures |old(stack)| < 2 ==> st == Underflow && stack == old(stack) && hw == old(hw)
      ensures |old(stack)| >= 2 ==>
        var address, amount := ToByte(old(S0())), ToSize(old(S1()));
        var rest := old(stack)[..|old(stack)| - 2];
        (amount > |rest| ==> st == Underflow && stack == rest && hw == old(hw)) &&
        (amount <= |rest| ==> (st == Done &&
          stack == rest[..|rest| - amount] + [ToLong(result)] &&
          hw == old(hw) + [WriteI2c(address, TopBytes(rest, amount))]))
    {
      if |stack| < 2 {
        return Underflow;
      }
      var address := ToByte(S0());
      var amount := ToSize(S1());
      stack := stack[..|stack| - 2];
      if |stack| < amount {
        return Underflow;
      }
      ghost var rest := stack;
      var data: seq<Byte> := [];
      var i := 0;
      while i < amount
        invariant i <= amount
        invariant stack == rest[..|rest| - i] && hw == old(hw)
        invariant data == TopBytes(rest, i)
      {
        data := data + [ToByte(stack[|stack| - 1])];
        stack := stack[..|stack| - 1];
        i := i + 1;
      }
      hw := hw + [WriteI2c(address, data)];
      stack := stack + [ToLong(result)];
      return Done;
    }

    /**
     * P_i2cread: [amount] [address] -> [byte]...[byte], the first byte
     * received on top. `received` is what readI2C stores; bytes it does not
     * supply are taken as 0.
     */
    method I2cRead(received: seq<Byte>) returns (st: Status)
      requires Valid()
      modifies this
      ensures Valid()
      ensures |old(stack)| < 2 ==> st == Underflow && stack == old(stack) && hw == old(hw)
      ensures |old(stack)| >= 2 ==>
        var address, amount := ToByte(old(S0())), ToSize(old(S1()));
        var rest := old(stack)[..|old(stack)| - 2];
        var data := seq(amount, i requires 0 <= i => At(received, i, 0));
        (|rest| + amount > capacity ==> st == Overflow && stack == rest && hw == old(hw)) &&
        (|rest| + amount <= capacity ==> (st == Done &&
          stack == rest + PushedReversed(data) &&
          hw == old(hw) + [ReadI2c(address, amount)]))
    {
      if |stack| < 2 {
        return Underflow;
      }
      var address := ToByte(S0());
      var amount := ToSize(S1());
      stack := stack[..|stack| - 2];
      if |stack| + amount > capacity {
        return Overflow;
      }
      var data := seq(amount, i requires 0 <= i => At(received, i, 0));
      hw := hw + [ReadI2c(address, amount)];
      ghost var rest := stack;
      var i: int := amount as int - 1;
      while i >= 0
        invariant -1 <= i < amount
        invariant stack == rest + PushedReversed(data[i + 1..])
        invariant Valid() && hw == old(hw) + [ReadI2c(address, amount)]
      {
        assert data[i..][1..] == data[i + 1..];
        stack := stack + [data[i]];
        i := i - 1;
      }
      assert data[0..] == data;
      return Done;
    }
  }

  /** The primitives the firmware adds to ATLAST. */
  datatype Prim =
    | PPinM | PPinW | PPinR | PDelayMs | PUptimeMs | PUptimeS
    | PFsSize | PFsUsed | PFsFree | PI2cScan | PI2cWrite | PI2cRead | PParseAccel

  /** A primfcn entry: a word name and its code, or the NULL entry that ends the table. */
  datatype Entry = Def(name: string, prim: Prim) | End

  /** espPrims. */
  const EspPrims: seq<Entry> := [
    Def("0PINM", PPinM),
    Def("0PINW", PPinW),
    Def("0PINR", PPinR),
    Def("0DELAY_MS", PDelayMs),
    Def("0UPTIME_MS", PUptimeMs),
    Def("0UPTIME_S", PUptimeS),
    Def("0FSSIZE", PFsSize),
    Def("0FSUSED", PFsUsed),
    Def("0FSFREE", PFsFree),
    Def("0I2CSCAN", PI2cScan),
    Def("0I2CWRITE", PI2cWrite),
    Def("0I2CREAD", PI2cRead),
    Def("0PARSEACCEL", PParseAccel),
    End
  ]

  /** The index of the first terminating entry at or after `i`, or the table's length. */
  function Defined(table: seq<Entry>, i: nat): (n: nat)
    requires i <= |table|
    ensures i <= n <= |table|
    ensures forall j :: i <= j < n ==> table[j].Def?
    ensures n < |table| ==> table[n] == End
    decreases |table| - i
  {
    if i == |table| || table[i].End? then i else Defined(table, i + 1)
  }

  /** The table defines thirteen words, each name prefixed with "0", and ends with its terminator. */
  lemma EspPrimsWellFormed()
    ensures Defined(EspPrims, 0) == 13 && |EspPrims| == 14
    ensures forall i :: 0 <= i < 13 ==> |EspPrims[i].name| > 1 && EspPrims[i].name[0] == '0'
  {
    var t := EspPrims;
    assert Defined(t, 13) == 13;
    assert Defined(t, 12) == 13;
    assert Defined(t, 11) == 13;
    assert Defined(t, 10) == 13;
    assert Defined(t, 9) == 13;
    assert Defined(t, 8) == 13;
    assert Defined(t, 7) == 13;
    assert Defined(t, 6) == 13;
    assert Defined(t, 5) == 13;
    assert Defined(t, 4) == 13;
    assert Defined(t, 3) == 13;
    assert Defined(t, 2) == 13;
    assert Defined(t, 1) == 13;
    assert Defined(t, 0) == 13;
  }
}
