/** Accounting of memory in unsigned 64-bit words, and the watermarks. */
module Monitor {
  const WORD := 0x1_0000_0000_0000_0000

  /** 2^40. */
  const TEBIBYTE := 0x100_0000_0000

  type uint64 = x: int | 0 <= x < WORD

  // ---------- Words ----------

  function Add64(x: uint64, d: uint64): uint64 {
    (x + d) % WORD
  }

  lemma Add64Is(x: uint64, d: uint64)
    ensures Add64(x, d) == if x + d < 18_446_744_073_709_551_616 then x + d else x + d - 18_446_744_073_709_551_616
  {
  }

  function Sub64(x: uint64, d: uint64): uint64 {
    (x - d) % WORD
  }

  function Mul64(x: uint64, y: uint64): uint64 {
    (x * y) % WORD
  }

  /** All bits flipped. */
  function Not64(x: uint64): uint64 {
    WORD - 1 - x
  }

  /** What Decrement adds in order to subtract s. */
  function Negated(s: uint64): uint64 {
    Not64(Sub64(s, 1))
  }

  /** Adding the flipped bits of s - 1 is subtracting s, for every s, zero included. */
  lemma AddNegated(x: uint64, s: uint64)
    ensures Add64(x, Negated(s)) == Sub64(x, s)
  {
    assert Negated(s) == if s == 0 then 0 else WORD - s;
  }

  /** Exactly when the test for underflow fires. */
  predicate LooksUnderflowed(after: uint64) {
    after > TEBIBYTE
  }

  lemma UnderflowTestIff(x: uint64, s: uint64)
    ensures LooksUnderflowed(Sub64(x, s)) <==>
            if s <= x then x - s > 1_099_511_627_776 else s - x < 18_446_744_073_709_551_616 - 1_099_511_627_776
    ensures x <= TEBIBYTE && s <= TEBIBYTE ==> (LooksUnderflowed(Sub64(x, s)) <==> s > x)
  {
  }

  /** watermark - 10 * (watermark >> 10), in words. */
  function RecoveryWatermark(watermark: uint64): uint64 {
    Sub64(watermark, Mul64(10, watermark / 1024))
  }

  /** The arithmetic of the recovery mark does not overflow. The mark is positive and at most the watermark; it lies
      below the watermark exactly from 1024 bytes on. */
  lemma RecoveryBelow(watermark: uint64)
    requires watermark > 0
    ensures 0 < RecoveryWatermark(watermark) <= watermark
    ensures RecoveryWatermark(watermark) < watermark <==> watermark >= 1024
    ensures 10 * watermark - 10 * 1024 < 1024 * (watermark - RecoveryWatermark(watermark)) <= 10 * watermark
  {
    var q := watermark / 1024;
    assert q * 1024 <= watermark < q * 1024 + 1024;
    assert Mul64(10, q) == 10 * q;
    assert Sub64(watermark, 10 * q) == watermark - 10 * q;
  }

  // ---------- The monitor, used by one goroutine ----------

  /** What a call of Decrement comes to. */
  datatype Outcome = Quiet | Signals | Panics

  /** The account after taking off size, and what the call comes to. */
  function AfterDecrement(current: uint64, size: uint64, recovery: uint64): (uint64, Outcome) {
    if (if size <= current then current - size > TEBIBYTE else size - current < WORD - TEBIBYTE) then (0, Panics)
    else if Sub64(current, size) < recovery then (Sub64(current, size), Signals)
    else (Sub64(current, size), Quiet)
  }

  class MemMonitor {
    var current: uint64
    const watermark: uint64
    const recoveryWatermark: uint64

    ghost predicate Valid() {
      watermark > 0 && recoveryWatermark == RecoveryWatermark(watermark)
    }

    constructor (watermark: uint64)
      requires watermark > 0
      ensures Valid() && current == 0 && this.watermark == watermark
    {
      this.current := 0;
      this.watermark := watermark;
      this.recoveryWatermark := Sub64(watermark, Mul64(10, watermark / 1024));
    }

    method Increment(size: uint64)
      modifies this
      ensures current == Add64(old(current), size)
    {
      current := Add64(current, size);
    }

    /** Takes the size off the account, and wakes the waiting goroutines below the recovery mark. An account that
        looks overdrawn is reset to zero, and then nobody is woken. */
    method Decrement(size: uint64) returns (outcome: Outcome)
      requires Valid()
      modifies this
      ensures (current, outcome) == AfterDecrement(old(current), size, recoveryWatermark)
      ensures outcome == Signals <==> outcome != Panics && current < recoveryWatermark
      ensures outcome == Panics ==> current == 0
      ensures outcome != Panics && size <= old(current) ==> current == old(current) - size
    {
      AddNegated(current, size);
      UnderflowTestIff(current, size);
      var after := Add64(current, Negated(size));
      current := after;
      if LooksUnderflowed(after) {
        current := 0;
        return Panics;
      }
      return if current < recoveryWatermark then Signals else Quiet;
    }
  }
}
