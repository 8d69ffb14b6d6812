/** Bit timing as CAN0_SetBitTime programs it: one CTRL1 constant, whatever
    bit rate is asked for. The field layout of CTRL1 is that of the FlexCAN
    chapter of the S32K1xx reference manual: PRESDIV bits 31-24, RJW bits
    23-22, PSEG1 bits 21-19, PSEG2 bits 18-16, PROPSEG bits 2-0. */
module CanTiming {
  import opened FlexCanRegs
  import opened CanTypes

  /** The constant ORed into CTRL1. */
  const BIT_TIMING: Word := 0x00DB_0006

  /** The CTRL1 bits that hold bit-timing fields. */
  const CTRL1_TIMING_MASK: Word := 0xFFFF_0007

  /** Frequency of the oscillator clock source (the 8 MHz crystal). */
  const OSCILLATOR_HZ: nat := 8_000_000

  /** CTRL1 after the clock-source selection of CAN0_init: CLKSRC cleared for
      the oscillator, set for the peripheral clock, every other bit kept. */
  function ClockSelect(ctrl1: Word, src: ClkSource): (r: Word)
    ensures r & !CTRL1_CLKSRC_MASK == ctrl1 & !CTRL1_CLKSRC_MASK
    ensures src == OscillatorSrc ==> r & CTRL1_CLKSRC_MASK == 0
    ensures src == PeripheralSrc ==> r & CTRL1_CLKSRC_MASK == CTRL1_CLKSRC_MASK
  {
    if src == OscillatorSrc then ClearBits(ctrl1, CTRL1_CLKSRC_MASK) else SetBits(ctrl1, CTRL1_CLKSRC_MASK)
  }

  /** CTRL1 after `CTRL1 |= 0x00DB0006`: every timing bit of the constant is
      set, no bit is cleared, and no bit outside the constant changes. */
  function WithBitTiming(ctrl1: Word): (r: Word)
    ensures r & BIT_TIMING == BIT_TIMING
    ensures r & !BIT_TIMING == ctrl1 & !BIT_TIMING
  {
    SetBits(ctrl1, BIT_TIMING)
  }

  /** The timing write never clears a CTRL1 bit. */
  lemma WithBitTimingNeverClears(ctrl1: Word)
    ensures ctrl1 & !WithBitTiming(ctrl1) == 0
  {
  }

  /** Writing the bit timing twice is the same as writing it once. */
  lemma WithBitTimingIdempotent(ctrl1: Word)
    ensures WithBitTiming(WithBitTiming(ctrl1)) == WithBitTiming(ctrl1)
  {
  }

  /** The timing write leaves the clock-source selection alone. */
  lemma WithBitTimingKeepsClockSource(ctrl1: Word)
    ensures WithBitTiming(ctrl1) & CTRL1_CLKSRC_MASK == ctrl1 & CTRL1_CLKSRC_MASK
  {
  }

  function PresDiv(c: Word): nat { ((c >> 24) & 0xFF) as nat }
  function Rjw(c: Word): nat { ((c >> 22) & 0x3) as nat }
  function PSeg1(c: Word): nat { ((c >> 19) & 0x7) as nat }
  function PSeg2(c: Word): nat { ((c >> 16) & 0x7) as nat }
  function PropSeg(c: Word): nat { (c & 0x7) as nat }

  /** Time quanta per bit: the sync segment plus three segments, each one
      longer than its register field. */
  function TimeQuanta(c: Word): (n: nat)
    ensures 4 <= n <= 25
  {
    1 + (PropSeg(c) + 1) + (PSeg1(c) + 1) + (PSeg2(c) + 1)
  }

  /** The bit rate, in bit/s, that CTRL1 value `c` gives with a protocol
      clock of `clockHz`: the clock divided by the prescaler and by the
      quanta per bit. */
  function BitRate(clockHz: nat, c: Word): int
  {
    clockHz / (PresDiv(c) + 1) / TimeQuanta(c)
  }

  /** The fields of the constant: prescaler 1, propagation segment 7 quanta,
      phase segments 4 quanta each, a jump width field equal to the PSEG2
      field (each field holds its length minus 1, so the jump width is 4
      quanta too), 16 quanta per bit. */
  lemma BitTimingFields()
    ensures PresDiv(BIT_TIMING) == 0
    ensures PropSeg(BIT_TIMING) == 6 && PSeg1(BIT_TIMING) == 3 && PSeg2(BIT_TIMING) == 3
    ensures Rjw(BIT_TIMING) == PSeg2(BIT_TIMING)
    ensures TimeQuanta(BIT_TIMING) == 16
    ensures BIT_TIMING & !CTRL1_TIMING_MASK == 0
  {
  }

  /** From a CTRL1 whose timing fields are clear (the reset value), the timing
      write yields 500 kbit/s on the 8 MHz oscillator. */
  lemma ConfiguredBitRate(ctrl1: Word)
    requires ctrl1 & CTRL1_TIMING_MASK == 0
    ensures BitRate(OSCILLATOR_HZ, WithBitTiming(ctrl1)) == 500_000
  {
    var c := WithBitTiming(ctrl1);
    assert c & CTRL1_TIMING_MASK == BIT_TIMING;
    assert (c >> 24) & 0xFF == (BIT_TIMING >> 24) & 0xFF;
    assert (c >> 22) & 0x3 == (BIT_TIMING >> 22) & 0x3;
    assert (c >> 19) & 0x7 == (BIT_TIMING >> 19) & 0x7;
    assert (c >> 16) & 0x7 == (BIT_TIMING >> 16) & 0x7;
    assert c & 0x7 == BIT_TIMING & 0x7;
    BitTimingFields();
  }

  /** On the 8 MHz oscillator, from a CTRL1 whose timing fields are clear,
      the rate the driver configures equals the requested rate exactly when
      500 kbit/s is requested: the rate argument is ignored. */
  lemma ConfiguredRateMatchesRequest(ctrl1: Word, b: BitTime)
    requires ctrl1 & CTRL1_TIMING_MASK == 0
    ensures BitRate(OSCILLATOR_HZ, WithBitTiming(ctrl1)) == NominalRate(b) <==> b == B500kHz
  {
    ConfiguredBitRate(ctrl1);
  }
}
