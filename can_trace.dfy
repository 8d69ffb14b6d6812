/** The order in which the driver accesses the peripheral. Every store is
    one entry of a trace, and so is every plain load: the MCR polls, the
    RAMn and TIMER reads of the receiver. A read-modify-write (`|=`, `&= ~`)
    is one entry, the store of its new value; its load is not recorded.
    The driver's operations extend the trace, and the lemmas here state the
    orderings the hardware requires and that replaying a trace's stores
    gives the registers and RAM the operations leave behind. */
module CanTrace {
  import opened FlexCanRegs
  import opened CanTypes
  import opened CanLayout
  import opened CanTiming

  /** The registers and register arrays of FlexCAN0 the driver accesses. */
  datatype Reg = Mcr | Ctrl1 | Iflag1 | RxMgMask | Timer | RamN | RxImr

  /** One access, in program order. `index` is the array index for RAMn and
      RXIMR and 0 for a single register. */
  datatype Access =
    | EnableClock                              // the PCC clock-gate store for FlexCAN0
    | Write(reg: Reg, index: nat, value: Word) // a store of `value`
    | Read(reg: Reg, index: nat, value: Word)  // a load that returned `value`

  predicate IsWriteTo(a: Access, reg: Reg)
  {
    a.Write? && a.reg == reg
  }

  // ---------------------------------------------------------------------
  // The hardware side of the freeze-acknowledge wait

  /** MCR as a poll reads it: the driver's bits, with FRZACK driven by the
      module (set once it has acknowledged freeze mode). */
  function WithFrzAck(mcr: Word, acked: bool): Word
  {
    if acked then SetBits(mcr, MCR_FRZACK_MASK) else ClearBits(mcr, MCR_FRZACK_MASK)
  }

  /** A poll changes only FRZACK, and FRZACK reads set exactly once the module
      has acknowledged. */
  lemma WithFrzAckBits(mcr: Word, acked: bool)
    ensures WithFrzAck(mcr, acked) & !MCR_FRZACK_MASK == mcr & !MCR_FRZACK_MASK
    ensures WithFrzAck(mcr, acked) & MCR_FRZACK_MASK == if acked then MCR_FRZACK_MASK else 0
  {
  }

  /** The first `n + 1` MCR reads of the freeze-acknowledge wait after the
      driver left MCR at `mcr`, when the module acknowledges on read number
      `ackDelay` (counting from 0). */
  function FreezeWaitReads(mcr: Word, ackDelay: nat, n: nat): (t: seq<Access>)
    ensures |t| == n + 1
  {
    seq(n + 1, i requires 0 <= i < n + 1 => Read(Mcr, 0, WithFrzAck(mcr, i == ackDelay)))
  }

  /** A poll sees FRZACK exactly when the module drives it. */
  lemma PollSeesAck(mcr: Word, acked: bool)
    ensures FrzAckBit(WithFrzAck(mcr, acked)) != 0 <==> acked
  {
  }

  /** One more poll appends one more read. */
  lemma FreezeWaitReadsStep(mcr: Word, ackDelay: nat, n: nat)
    ensures FreezeWaitReads(mcr, ackDelay, n + 1)
         == FreezeWaitReads(mcr, ackDelay, n) + [Read(Mcr, 0, WithFrzAck(mcr, n + 1 == ackDelay))]
  {
  }

  // ---------------------------------------------------------------------
  // CAN0_init

  /** The stores that zero RAMn words 0 .. n-1, in order. */
  function RamClearWrites(n: nat): (t: seq<Access>)
    ensures |t| == n
  {
    seq(n, i requires 0 <= i < n => Write(RamN, i, 0))
  }

  /** The stores that set RXIMR entries 0 .. n-1 to check every identifier bit. */
  function MaskWrites(n: nat): (t: seq<Access>)
    ensures |t| == n
  {
    seq(n, i requires 0 <= i < n => Write(RxImr, i, CHECK_ID))
  }

  /** MCR after the module-disable bit is set. */
  function Disabled(mcr0: Word): Word { SetBits(mcr0, MCR_MDIS_MASK) }

  /** MCR after the module-disable bit is cleared again. */
  function Enabled(mcr0: Word): Word { ClearBits(Disabled(mcr0), MCR_MDIS_MASK) }

  /** MCR after the FIFO-enable bit is cleared, once the module has
      acknowledged freeze mode. */
  function FifoOff(mcr0: Word): Word { ClearBits(WithFrzAck(Enabled(mcr0), true), MCR_RFEN_MASK) }

  /** MCR after the self-reception-disable bit is cleared as well. */
  function SelfRxOn(mcr0: Word): Word { ClearBits(FifoOff(mcr0), MCR_SRXDIS_MASK) }

  /** Clock gate, module disable, clock-source selection, module enable. */
  function InitSelectLog(mcr0: Word, ctrl10: Word, src: ClkSource): (t: seq<Access>)
    ensures |t| == 4
  {
    [EnableClock, Write(Mcr, 0, Disabled(mcr0)), Write(Ctrl1, 0, ClockSelect(ctrl10, src)),
     Write(Mcr, 0, Enabled(mcr0))]
  }

  /** The first stores made while frozen: bit timing, FIFO off, self reception on. */
  function InitTimingLog(mcr0: Word, ctrl10: Word, src: ClkSource): (t: seq<Access>)
    ensures |t| == 3
  {
    [Write(Ctrl1, 0, WithBitTiming(ClockSelect(ctrl10, src))),
     Write(Mcr, 0, FifoOff(mcr0)), Write(Mcr, 0, SelfRxOn(mcr0))]
  }

  /** The last stores made while frozen: global mask, then MB4's control and
      identifier words. */
  function InitArmLog(): (t: seq<Access>)
    ensures |t| == 3
  {
    [Write(RxMgMask, 0, CHECK_ALL_ID), Write(RamN, RX_MB4, CODE_FIELD_4),
     Write(RamN, RX_MB4 + 1, RX_ID_WORD)]
  }

  /** Everything CAN0_init stores while the module is frozen. */
  function InitConfigLog(mcr0: Word, ctrl10: Word, src: ClkSource): (t: seq<Access>)
    ensures |t| == 3 + RAM_LENGTH + MB_FILT + 3
  {
    InitTimingLog(mcr0, ctrl10, src) + RamClearWrites(RAM_LENGTH) + MaskWrites(MB_FILT) + InitArmLog()
  }

  /** Leaving freeze mode: the MCR store and the single read each of the two
      release waits performs. */
  function InitReleaseLog(): (t: seq<Access>)
    ensures |t| == 3
  {
    [Write(Mcr, 0, CANFD_NOT_USED), Read(Mcr, 0, CANFD_NOT_USED), Read(Mcr, 0, CANFD_NOT_USED)]
  }

  /** The whole trace of CAN0_init, from MCR `mcr0` and CTRL1 `ctrl10`, when
      the module acknowledges freeze on poll number `ackDelay`. */
  function InitLog(mcr0: Word, ctrl10: Word, src: ClkSource, ackDelay: nat): (t: seq<Access>)
    ensures |t| == 4 + (ackDelay + 1) + |InitConfigLog(mcr0, ctrl10, src)| + 3
  {
    InitSelectLog(mcr0, ctrl10, src) + FreezeWaitReads(Enabled(mcr0), ackDelay, ackDelay)
    + InitConfigLog(mcr0, ctrl10, src) + InitReleaseLog()
  }

  /** The phases of CAN0_init, one after another, make up InitLog. */
  lemma InitLogAssembled(mcr0: Word, ctrl10: Word, src: ClkSource, ackDelay: nat)
    ensures InitSelectLog(mcr0, ctrl10, src) + FreezeWaitReads(Enabled(mcr0), ackDelay, ackDelay)
            + InitTimingLog(mcr0, ctrl10, src) + RamClearWrites(RAM_LENGTH) + MaskWrites(MB_FILT)
            + InitArmLog() + InitReleaseLog()
         == InitLog(mcr0, ctrl10, src, ackDelay)
  {
  }

  /** Index in InitLog of the first access after the freeze-acknowledge wait. */
  function FrozenFrom(ackDelay: nat): nat { 4 + ackDelay + 1 }

  /** The clock source is selected while the module is disabled: the CTRL1
      store sits between the MCR store that sets MDIS and the one that clears
      it, changes nothing but CLKSRC, and leaves CLKSRC clear exactly for the
      oscillator. */
  lemma InitSelectsClockWhileDisabled(mcr0: Word, ctrl10: Word, src: ClkSource, ackDelay: nat)
    ensures var t := InitLog(mcr0, ctrl10, src, ackDelay);
      && t[0] == EnableClock
      && IsWriteTo(t[1], Mcr) && t[1].value & MCR_MDIS_MASK != 0
      && IsWriteTo(t[2], Ctrl1) && t[2].value & !CTRL1_CLKSRC_MASK == ctrl10 & !CTRL1_CLKSRC_MASK
      && (src == OscillatorSrc ==> t[2].value & CTRL1_CLKSRC_MASK == 0)
      && (src == PeripheralSrc ==> t[2].value & CTRL1_CLKSRC_MASK != 0)
      && IsWriteTo(t[3], Mcr) && t[3].value & MCR_MDIS_MASK == 0
      && t[3].value == t[1].value & !MCR_MDIS_MASK
  {
    var t := InitLog(mcr0, ctrl10, src, ackDelay);
    assert t[..4] == InitSelectLog(mcr0, ctrl10, src);
  }

  /** The freeze-acknowledge wait reads MCR until it first sees FRZACK set. */
  lemma InitWaitsForFreezeAck(mcr0: Word, ctrl10: Word, src: ClkSource, ackDelay: nat)
    ensures var t := InitLog(mcr0, ctrl10, src, ackDelay);
      && (forall j :: 4 <= j < FrozenFrom(ackDelay) ==> t[j].Read? && t[j].reg == Mcr)
      && (forall j :: 4 <= j < FrozenFrom(ackDelay) - 1 ==> t[j].value & MCR_FRZACK_MASK == 0)
      && t[FrozenFrom(ackDelay) - 1].value & MCR_FRZACK_MASK != 0
  {
    var t := InitLog(mcr0, ctrl10, src, ackDelay);
    var w := FreezeWaitReads(Enabled(mcr0), ackDelay, ackDelay);
    forall j | 4 <= j < FrozenFrom(ackDelay)
      ensures t[j] == Read(Mcr, 0, WithFrzAck(Enabled(mcr0), j - 4 == ackDelay))
    {
      assert t[j] == w[j - 4];
      WithFrzAckBits(Enabled(mcr0), j - 4 == ackDelay);
    }
  }

  /** Every store of the configuration — bit timing, RAM, masks — comes after
      the poll that saw FRZACK set; before it, the only CTRL1 store is the
      clock-source selection, and RAMn, RXIMR and RXMGMASK are not stored. */
  lemma InitConfiguresOnlyWhenFrozen(mcr0: Word, ctrl10: Word, src: ClkSource, ackDelay: nat)
    ensures var t := InitLog(mcr0, ctrl10, src, ackDelay);
      && (forall j :: 0 <= j < FrozenFrom(ackDelay) ==>
            !IsWriteTo(t[j], RamN) && !IsWriteTo(t[j], RxImr) && !IsWriteTo(t[j], RxMgMask))
      && (forall j :: 0 <= j < FrozenFrom(ackDelay) && IsWriteTo(t[j], Ctrl1) ==> j == 2)
      && t[FrozenFrom(ackDelay)] == Write(Ctrl1, 0, WithBitTiming(t[2].value))
  {
    var t := InitLog(mcr0, ctrl10, src, ackDelay);
    var w := FreezeWaitReads(Enabled(mcr0), ackDelay, ackDelay);
    forall j | 4 <= j < FrozenFrom(ackDelay)
      ensures t[j] == w[j - 4]
    {
    }
    assert t[FrozenFrom(ackDelay)] == InitConfigLog(mcr0, ctrl10, src)[0];
  }

  /** CAN0_init ends with MCR stored as exactly 0x1F, followed by reads only. */
  lemma InitEndsWithMcrStore(mcr0: Word, ctrl10: Word, src: ClkSource, ackDelay: nat)
    ensures var t := InitLog(mcr0, ctrl10, src, ackDelay);
      && t[|t| - 3] == Write(Mcr, 0, CANFD_NOT_USED)
      && t[|t| - 2].Read? && t[|t| - 1].Read?
  {
  }

  // ---------------------------------------------------------------------
  // CAN0_Transmitter and CAN0_Receiver

  /** The trace of CAN0_Transmitter. */
  function TransmitLog(): (t: seq<Access>)
    ensures |t| == 5
  {
    [Write(Iflag1, 0, CLEAN_MB0),
     Write(RamN, WordIndex(0, 2), TX_DATA_WORD0), Write(RamN, WordIndex(0, 3), TX_DATA_WORD1),
     Write(RamN, WordIndex(0, 1), TX_ID_WORD), Write(RamN, WordIndex(0, 0), TX_CS_WORD)]
  }

  /** The transmitter clears MB0's flag before touching the buffer, stores
      only MB0 words, and stores the control word, which activates the
      buffer, last. */
  lemma TransmitOrder()
    ensures var t := TransmitLog();
      && t[0] == Write(Iflag1, 0, CLEAN_MB0)
      && (forall j :: 0 < j < |t| ==> IsWriteTo(t[j], RamN) && t[j].index < WORDS_PER_MB)
      && t[|t| - 1] == Write(RamN, WordIndex(0, 0), TX_CS_WORD)
      && (forall j :: 0 < j < |t| - 1 ==> t[j].index != WordIndex(0, 0))
  {
  }

  /** The reads of MB4's two data words, the first `n` of them. */
  function DataReads(ram: seq<Word>, n: nat): (t: seq<Access>)
    requires |ram| == RAM_LENGTH && n <= MAX_DATA
    ensures |t| == n
  {
    seq(n, k requires 0 <= k < n => Read(RamN, 4 * DATA_LENGTH_MB + 2 + k, ram[4 * DATA_LENGTH_MB + 2 + k]))
  }

  /** The reads of MB4's control word, identifier word and control word again. */
  function FieldReads(ram: seq<Word>): (t: seq<Access>)
    requires |ram| == RAM_LENGTH
    ensures |t| == 3
  {
    [Read(RamN, 4 * WORDS_PER_MB, ram[4 * WORDS_PER_MB]),
     Read(RamN, 4 * WORDS_PER_MB + 1, ram[4 * WORDS_PER_MB + 1]),
     Read(RamN, 4 * WORDS_PER_MB, ram[4 * WORDS_PER_MB])]
  }

  /** The read of MB0's control word, the TIMER read and the MB4 flag clear. */
  function UnlockAccesses(ram: seq<Word>, timer: Word): (t: seq<Access>)
    requires |ram| == RAM_LENGTH
    ensures |t| == 3
  {
    [Read(RamN, 0 * WORDS_PER_MB + 0, ram[0 * WORDS_PER_MB + 0]),
     Read(Timer, 0, timer), Write(Iflag1, 0, MB4_FLAG)]
  }

  /** The trace of CAN0_Receiver over RAMn contents `ram` and timer value `timer`. */
  function ReceiveLog(ram: seq<Word>, timer: Word): (t: seq<Access>)
    requires |ram| == RAM_LENGTH
    ensures |t| == 8
  {
    FieldReads(ram) + DataReads(ram, MAX_DATA) + UnlockAccesses(ram, timer)
  }

  /** The unlock sequence: the receiver stores nothing but the MB4 flag
      clear, which comes last; the TIMER read comes just before it, after
      every RAM read. */
  lemma ReceiveUnlockOrder(ram: seq<Word>, timer: Word)
    requires |ram| == RAM_LENGTH
    ensures var t := ReceiveLog(ram, timer);
      && (forall j :: 0 <= j < |t| - 2 ==> t[j].Read? && t[j].reg == RamN)
      && t[|t| - 2] == Read(Timer, 0, timer)
      && t[|t| - 1] == Write(Iflag1, 0, MB4_FLAG)
  {
  }

  // ---------------------------------------------------------------------
  // Replaying a trace

  /** Register array `a` of `reg` after the single access `x`. A store into
      IFLAG1 clears the flags written as 1 (the register is write-1-to-clear);
      a store elsewhere replaces the word; stores outside the array and
      reads change nothing. */
  function Apply1(reg: Reg, a: seq<Word>, x: Access): (r: seq<Word>)
    ensures |r| == |a|
  {
    if IsWriteTo(x, reg) && x.index < |a| then
      a[x.index := if reg == Iflag1 then W1C(a[x.index], x.value) else x.value]
    else a
  }

  /** Register array `a` of `reg` after the accesses of `t`, in order. A
      single register is an array of one word at index 0. */
  function ApplyWrites(reg: Reg, a: seq<Word>, t: seq<Access>): (r: seq<Word>)
    ensures |r| == |a|
    decreases |t|
  {
    if t == [] then a else ApplyWrites(reg, Apply1(reg, a, t[0]), t[1..])
  }

  /** Single register `reg` after the accesses of `t`, when it held `v` before. */
  function Replayed(reg: Reg, v: Word, t: seq<Access>): Word
  {
    ApplyWrites(reg, [v], t)[0]
  }

  /** No access of `t` stores into `reg`. */
  ghost predicate Untouched(reg: Reg, t: seq<Access>)
  {
    forall j :: 0 <= j < |t| ==> !IsWriteTo(t[j], reg)
  }

  lemma UntouchedAppend(reg: Reg, t1: seq<Access>, t2: seq<Access>)
    requires Untouched(reg, t1) && Untouched(reg, t2)
    ensures Untouched(reg, t1 + t2)
  {
    forall j | 0 <= j < |t1 + t2|
      ensures !IsWriteTo((t1 + t2)[j], reg)
    {
      if j >= |t1| {
        assert (t1 + t2)[j] == t2[j - |t1|];
      }
    }
  }

  lemma {:induction false} ApplyWritesAppend(reg: Reg, a: seq<Word>, t1: seq<Access>, t2: seq<Access>)
    ensures ApplyWrites(reg, a, t1 + t2) == ApplyWrites(reg, ApplyWrites(reg, a, t1), t2)
    decreases |t1|
  {
    if t1 == [] {
      assert t1 + t2 == t2;
    } else {
      assert (t1 + t2)[1..] == t1[1..] + t2;
      ApplyWritesAppend(reg, Apply1(reg, a, t1[0]), t1[1..], t2);
    }
  }

  /** A trace with no store into `reg` leaves it unchanged. */
  lemma {:induction false} ApplyWritesUntouched(reg: Reg, a: seq<Word>, t: seq<Access>)
    requires Untouched(reg, t)
    ensures ApplyWrites(reg, a, t) == a
    decreases |t|
  {
    if t != [] {
      ApplyWritesUntouched(reg, a, t[1..]);
    }
  }

  lemma ApplyWritesOne(reg: Reg, a: seq<Word>, x: Access)
    ensures ApplyWrites(reg, a, [x]) == Apply1(reg, a, x)
  {
    assert [x][1..] == [];
  }

  /** The stores `seq(n, i => Write(reg, i, v))` set the first `n` words to `v`. */
  lemma {:induction false} ApplyFill(reg: Reg, a: seq<Word>, v: Word, n: nat)
    requires reg != Iflag1 && n <= |a|
    ensures ApplyWrites(reg, a, seq(n, i requires 0 <= i < n => Write(reg, i, v)))
            == seq(n, i requires 0 <= i < n => v) + a[n..]
  {
    var t := seq(n, i requires 0 <= i < n => Write(reg, i, v));
    if n == 0 {
      assert t == [];
      assert a[0..] == a;
    } else {
      var t' := seq(n - 1, i requires 0 <= i < n - 1 => Write(reg, i, v));
      assert t == t' + [Write(reg, n - 1, v)];
      ApplyFill(reg, a, v, n - 1);
      ApplyWritesAppend(reg, a, t', [Write(reg, n - 1, v)]);
      ApplyWritesOne(reg, seq(n - 1, i requires 0 <= i < n - 1 => v) + a[n - 1..], Write(reg, n - 1, v));
      assert (seq(n - 1, i requires 0 <= i < n - 1 => v) + a[n - 1..])[n - 1 := v]
             == seq(n, i requires 0 <= i < n => v) + a[n..];
    }
  }

  /** The pieces of InitLog, spelled out. */
  lemma InitLogPieces(mcr0: Word, ctrl10: Word, src: ClkSource, ackDelay: nat)
    ensures InitLog(mcr0, ctrl10, src, ackDelay)
      == InitSelectLog(mcr0, ctrl10, src) + FreezeWaitReads(Enabled(mcr0), ackDelay, ackDelay)
         + InitTimingLog(mcr0, ctrl10, src) + RamClearWrites(RAM_LENGTH) + MaskWrites(MB_FILT)
         + InitArmLog() + InitReleaseLog()
  {
  }

  /** The clock selection stores only into MCR and CTRL1. */
  lemma SelectLogStores(mcr0: Word, ctrl10: Word, src: ClkSource, reg: Reg)
    ensures reg != Mcr && reg != Ctrl1 ==> Untouched(reg, InitSelectLog(mcr0, ctrl10, src))
  {
  }

  /** The freeze-acknowledge wait only reads. */
  lemma FreezeWaitStoresNothing(mcr: Word, ackDelay: nat, n: nat, reg: Reg)
    ensures Untouched(reg, FreezeWaitReads(mcr, ackDelay, n))
  {
  }

  /** The frozen configuration stores only into CTRL1 and MCR. */
  lemma TimingLogStores(mcr0: Word, ctrl10: Word, src: ClkSource, reg: Reg)
    ensures reg != Mcr && reg != Ctrl1 ==> Untouched(reg, InitTimingLog(mcr0, ctrl10, src))
  {
  }

  /** The RAM clear stores only into RAMn. */
  lemma RamClearStores(n: nat, reg: Reg)
    ensures reg != RamN ==> Untouched(reg, RamClearWrites(n))
  {
  }

  /** The mask loop stores only into RXIMR. */
  lemma MaskWritesStore(n: nat, reg: Reg)
    ensures reg != RxImr ==> Untouched(reg, MaskWrites(n))
  {
  }

  /** Arming MB4 stores only into RXMGMASK and RAMn. */
  lemma ArmLogStores(reg: Reg)
    ensures reg != RxMgMask && reg != RamN ==> Untouched(reg, InitArmLog())
  {
  }

  /** Leaving freeze mode stores only into MCR. */
  lemma ReleaseLogStores(reg: Reg)
    ensures reg != Mcr ==> Untouched(reg, InitReleaseLog())
  {
  }

  /** Apart from the stores named, no piece of InitLog stores into a register. */
  lemma InitPiecesUntouched(mcr0: Word, ctrl10: Word, src: ClkSource, ackDelay: nat, reg: Reg)
    ensures reg != Mcr && reg != Ctrl1 ==> Untouched(reg, InitSelectLog(mcr0, ctrl10, src))
    ensures Untouched(reg, FreezeWaitReads(Enabled(mcr0), ackDelay, ackDelay))
    ensures reg != Mcr && reg != Ctrl1 ==> Untouched(reg, InitTimingLog(mcr0, ctrl10, src))
    ensures reg != RamN ==> Untouched(reg, RamClearWrites(RAM_LENGTH))
    ensures reg != RxImr ==> Untouched(reg, MaskWrites(MB_FILT))
    ensures reg != RxMgMask && reg != RamN ==> Untouched(reg, InitArmLog())
    ensures reg != Mcr ==> Untouched(reg, InitReleaseLog())
  {
    SelectLogStores(mcr0, ctrl10, src, reg);
    FreezeWaitStoresNothing(Enabled(mcr0), ackDelay, ackDelay, reg);
    TimingLogStores(mcr0, ctrl10, src, reg);
    RamClearStores(RAM_LENGTH, reg);
    MaskWritesStore(MB_FILT, reg);
    ArmLogStores(reg);
    ReleaseLogStores(reg);
  }

  /** The RAM clear loop zeroes every RAMn word, whatever it held. */
  lemma ClearReplaysZeros(ram: seq<Word>)
    requires |ram| == RAM_LENGTH
    ensures ApplyWrites(RamN, ram, RamClearWrites(RAM_LENGTH)) == seq(RAM_LENGTH, i => 0 as Word)
  {
    var zeros := seq(RAM_LENGTH, i requires 0 <= i < RAM_LENGTH => 0 as Word);
    assert RamClearWrites(RAM_LENGTH) == seq(RAM_LENGTH, i requires 0 <= i < RAM_LENGTH => Write(RamN, i, 0));
    ApplyFill(RamN, ram, 0, RAM_LENGTH);
    assert zeros + ram[RAM_LENGTH..] == zeros;
  }

  /** Arming MB4 stores its control word, then its identifier word. */
  lemma ArmReplaysMb4(a: seq<Word>)
    requires |a| == RAM_LENGTH
    ensures ApplyWrites(RamN, a, InitArmLog()) == a[RX_MB4 := CODE_FIELD_4][RX_MB4 + 1 := RX_ID_WORD]
  {
    var arm := InitArmLog();
    assert arm == [arm[0]] + ([arm[1]] + [arm[2]]);
    ApplyWritesCons(RamN, a, arm[0], [arm[1]] + [arm[2]]);
    ApplyWritesCons(RamN, a, arm[1], [arm[2]]);
    ApplyWritesOne(RamN, a[RX_MB4 := CODE_FIELD_4], arm[2]);
  }

  /** Replaying CAN0_init's stores into any RAM contents gives InitRam. */
  lemma InitReplaysRam(mcr0: Word, ctrl10: Word, src: ClkSource, ackDelay: nat, ram: seq<Word>)
    requires |ram| == RAM_LENGTH
    ensures ApplyWrites(RamN, ram, InitLog(mcr0, ctrl10, src, ackDelay)) == InitRam()
  {
    var sel := InitSelectLog(mcr0, ctrl10, src);
    var p0 := sel + FreezeWaitReads(Enabled(mcr0), ackDelay, ackDelay) + InitTimingLog(mcr0, ctrl10, src);
    var p1 := p0 + RamClearWrites(RAM_LENGTH);
    var p2 := p1 + MaskWrites(MB_FILT);
    var p3 := p2 + InitArmLog();
    InitLogPieces(mcr0, ctrl10, src, ackDelay);
    InitPiecesUntouched(mcr0, ctrl10, src, ackDelay, RamN);
    UntouchedAppend(RamN, sel, FreezeWaitReads(Enabled(mcr0), ackDelay, ackDelay));
    UntouchedAppend(RamN, sel + FreezeWaitReads(Enabled(mcr0), ackDelay, ackDelay), InitTimingLog(mcr0, ctrl10, src));
    ApplyWritesDropUntouched(RamN, ram, p3, InitReleaseLog());
    ApplyWritesAppend(RamN, ram, p2, InitArmLog());
    ApplyWritesDropUntouched(RamN, ram, p1, MaskWrites(MB_FILT));
    ApplyWritesAppend(RamN, ram, p0, RamClearWrites(RAM_LENGTH));
    ApplyWritesUntouched(RamN, ram, p0);
    ClearReplaysZeros(ram);
    ArmReplaysMb4(seq(RAM_LENGTH, i => 0 as Word));
  }

  lemma ApplyWritesCons(reg: Reg, a: seq<Word>, x: Access, t: seq<Access>)
    ensures ApplyWrites(reg, a, [x] + t) == ApplyWrites(reg, Apply1(reg, a, x), t)
  {
    assert ([x] + t)[1..] == t;
  }

  /** Replaying CAN0_init's stores into any filter masks sets every RXIMR
      word to the check-all mask. */
  lemma InitReplaysMasks(mcr0: Word, ctrl10: Word, src: ClkSource, ackDelay: nat, rximr: seq<Word>)
    requires |rximr| == MB_FILT
    ensures ApplyWrites(RxImr, rximr, InitLog(mcr0, ctrl10, src, ackDelay))
            == seq(MB_FILT, i requires 0 <= i < MB_FILT => CHECK_ID)
  {
    var sel := InitSelectLog(mcr0, ctrl10, src);
    var wait := FreezeWaitReads(Enabled(mcr0), ackDelay, ackDelay);
    var p0 := sel + wait + InitTimingLog(mcr0, ctrl10, src) + RamClearWrites(RAM_LENGTH);
    var p1 := p0 + MaskWrites(MB_FILT);
    var p2 := p1 + InitArmLog();
    var ones := seq(MB_FILT, i requires 0 <= i < MB_FILT => CHECK_ID);
    InitLogPieces(mcr0, ctrl10, src, ackDelay);
    InitPiecesUntouched(mcr0, ctrl10, src, ackDelay, RxImr);
    UntouchedAppend(RxImr, sel, wait);
    UntouchedAppend(RxImr, sel + wait, InitTimingLog(mcr0, ctrl10, src));
    UntouchedAppend(RxImr, sel + wait + InitTimingLog(mcr0, ctrl10, src), RamClearWrites(RAM_LENGTH));
    ApplyWritesUntouched(RxImr, rximr, p0);
    ApplyWritesAppend(RxImr, rximr, p0, MaskWrites(MB_FILT));
    assert MaskWrites(MB_FILT) == seq(MB_FILT, i requires 0 <= i < MB_FILT => Write(RxImr, i, CHECK_ID));
    ApplyFill(RxImr, rximr, CHECK_ID, MB_FILT);
    assert ones + rximr[MB_FILT..] == ones;
    ApplyWritesAppend(RxImr, rximr, p1, InitArmLog());
    ApplyWritesUntouched(RxImr, ones, InitArmLog());
    ApplyWritesAppend(RxImr, rximr, p2, InitReleaseLog());
    ApplyWritesUntouched(RxImr, ones, InitReleaseLog());
  }

  /** A register other than IFLAG1 holds the value of the last store into it. */
  lemma ReplayedLastStore(reg: Reg, v: Word, head: seq<Access>, x: Access, tail: seq<Access>)
    requires reg != Iflag1 && IsWriteTo(x, reg) && x.index == 0 && Untouched(reg, tail)
    ensures Replayed(reg, v, head + [x] + tail) == x.value
  {
    var y := ApplyWrites(reg, [v], head);
    ApplyWritesAppend(reg, [v], head + [x], tail);
    ApplyWritesAppend(reg, [v], head, [x]);
    ApplyWritesOne(reg, y, x);
    assert Apply1(reg, y, x) == [x.value];
    ApplyWritesUntouched(reg, [x.value], tail);
  }

  /** Accesses that store nothing into `reg` can be dropped from the end. */
  lemma ApplyWritesDropUntouched(reg: Reg, a: seq<Word>, t: seq<Access>, u: seq<Access>)
    requires Untouched(reg, u)
    ensures ApplyWrites(reg, a, t + u) == ApplyWrites(reg, a, t)
  {
    ApplyWritesAppend(reg, a, t, u);
    ApplyWritesUntouched(reg, ApplyWrites(reg, a, t), u);
  }

  /** A register other than IFLAG1 holds the first value of a piece whose
      other accesses do not store into it. */
  lemma ReplayedFirstOfPiece(reg: Reg, v: Word, head: seq<Access>, piece: seq<Access>)
    requires reg != Iflag1 && |piece| > 0 && IsWriteTo(piece[0], reg) && piece[0].index == 0
    requires Untouched(reg, piece[1..])
    ensures Replayed(reg, v, head + piece) == piece[0].value
  {
    assert head + piece == head + [piece[0]] + piece[1..];
    ReplayedLastStore(reg, v, head, piece[0], piece[1..]);
  }

  /** Replaying CAN0_init's trace, MCR ends as the final store of 0x1F. */
  lemma InitReplaysMcr(mcr0: Word, ctrl10: Word, src: ClkSource, ackDelay: nat)
    ensures Replayed(Mcr, mcr0, InitLog(mcr0, ctrl10, src, ackDelay)) == CANFD_NOT_USED
  {
    var head := InitSelectLog(mcr0, ctrl10, src) + FreezeWaitReads(Enabled(mcr0), ackDelay, ackDelay)
                + InitConfigLog(mcr0, ctrl10, src);
    ReplayedFirstOfPiece(Mcr, mcr0, head, InitReleaseLog());
  }

  /** Replaying CAN0_init's trace, CTRL1 ends with the selected clock source
      and the bit timing. */
  lemma InitReplaysCtrl1(mcr0: Word, ctrl10: Word, src: ClkSource, ackDelay: nat)
    ensures Replayed(Ctrl1, ctrl10, InitLog(mcr0, ctrl10, src, ackDelay)) == WithBitTiming(ClockSelect(ctrl10, src))
  {
    var head := InitSelectLog(mcr0, ctrl10, src) + FreezeWaitReads(Enabled(mcr0), ackDelay, ackDelay);
    var p0 := head + InitTimingLog(mcr0, ctrl10, src);
    var p1 := p0 + RamClearWrites(RAM_LENGTH);
    var p2 := p1 + MaskWrites(MB_FILT);
    var p3 := p2 + InitArmLog();
    InitLogPieces(mcr0, ctrl10, src, ackDelay);
    InitPiecesUntouched(mcr0, ctrl10, src, ackDelay, Ctrl1);
    ApplyWritesDropUntouched(Ctrl1, [ctrl10], p3, InitReleaseLog());
    ApplyWritesDropUntouched(Ctrl1, [ctrl10], p2, InitArmLog());
    ApplyWritesDropUntouched(Ctrl1, [ctrl10], p1, MaskWrites(MB_FILT));
    ApplyWritesDropUntouched(Ctrl1, [ctrl10], p0, RamClearWrites(RAM_LENGTH));
    ReplayedFirstOfPiece(Ctrl1, ctrl10, head, InitTimingLog(mcr0, ctrl10, src));
  }

  /** Replaying CAN0_init's trace, RXMGMASK ends as the check-all mask. */
  lemma InitReplaysGlobalMask(mcr0: Word, ctrl10: Word, src: ClkSource, ackDelay: nat, mask0: Word)
    ensures Replayed(RxMgMask, mask0, InitLog(mcr0, ctrl10, src, ackDelay)) == CHECK_ALL_ID
  {
    var head := InitSelectLog(mcr0, ctrl10, src) + FreezeWaitReads(Enabled(mcr0), ackDelay, ackDelay)
                + InitTimingLog(mcr0, ctrl10, src) + RamClearWrites(RAM_LENGTH) + MaskWrites(MB_FILT);
    InitLogPieces(mcr0, ctrl10, src, ackDelay);
    InitPiecesUntouched(mcr0, ctrl10, src, ackDelay, RxMgMask);
    ApplyWritesDropUntouched(RxMgMask, [mask0], head + InitArmLog(), InitReleaseLog());
    ReplayedFirstOfPiece(RxMgMask, mask0, head, InitArmLog());
  }

  /** CAN0_init never stores into IFLAG1. */
  lemma InitKeepsFlags(mcr0: Word, ctrl10: Word, src: ClkSource, ackDelay: nat, flags0: Word)
    ensures Replayed(Iflag1, flags0, InitLog(mcr0, ctrl10, src, ackDelay)) == flags0
  {
    var sel := InitSelectLog(mcr0, ctrl10, src);
    var wait := FreezeWaitReads(Enabled(mcr0), ackDelay, ackDelay);
    var timing := InitTimingLog(mcr0, ctrl10, src);
    var clear := RamClearWrites(RAM_LENGTH);
    var masks := MaskWrites(MB_FILT);
    var arm := InitArmLog();
    InitLogPieces(mcr0, ctrl10, src, ackDelay);
    InitPiecesUntouched(mcr0, ctrl10, src, ackDelay, Iflag1);
    UntouchedAppend(Iflag1, sel, wait);
    UntouchedAppend(Iflag1, sel + wait, timing);
    UntouchedAppend(Iflag1, sel + wait + timing, clear);
    UntouchedAppend(Iflag1, sel + wait + timing + clear, masks);
    UntouchedAppend(Iflag1, sel + wait + timing + clear + masks, arm);
    UntouchedAppend(Iflag1, sel + wait + timing + clear + masks + arm, InitReleaseLog());
    ApplyWritesUntouched(Iflag1, [flags0], InitLog(mcr0, ctrl10, src, ackDelay));
  }

  /** The transmitter's stores, with their RAMn word indices worked out. */
  lemma TransmitLogSpelled()
    ensures TransmitLog() == [Write(Iflag1, 0, CLEAN_MB0)]
      + ([Write(RamN, 2, TX_DATA_WORD0)] + ([Write(RamN, 3, TX_DATA_WORD1)]
      + ([Write(RamN, 1, TX_ID_WORD)] + [Write(RamN, 0, TX_CS_WORD)])))
  {
  }

  /** Replaying CAN0_Transmitter's trace into any RAM contents gives TransmitRam. */
  lemma TransmitReplaysRam(ram: seq<Word>)
    requires |ram| == RAM_LENGTH
    ensures ApplyWrites(RamN, ram, TransmitLog()) == TransmitRam(ram)
  {
    var x0, x1, x2, x3 := Write(RamN, 2, TX_DATA_WORD0), Write(RamN, 3, TX_DATA_WORD1),
                          Write(RamN, 1, TX_ID_WORD), Write(RamN, 0, TX_CS_WORD);
    var r1 := ram[2 := TX_DATA_WORD0];
    var r2 := r1[3 := TX_DATA_WORD1];
    var r3 := r2[1 := TX_ID_WORD];
    TransmitLogSpelled();
    ApplyWritesCons(RamN, ram, Write(Iflag1, 0, CLEAN_MB0), [x0] + ([x1] + ([x2] + [x3])));
    assert Apply1(RamN, ram, Write(Iflag1, 0, CLEAN_MB0)) == ram;
    ApplyWritesCons(RamN, ram, x0, [x1] + ([x2] + [x3]));
    assert Apply1(RamN, ram, x0) == r1;
    ApplyWritesCons(RamN, r1, x1, [x2] + [x3]);
    assert Apply1(RamN, r1, x1) == r2;
    ApplyWritesCons(RamN, r2, x2, [x3]);
    assert Apply1(RamN, r2, x2) == r3;
    ApplyWritesOne(RamN, r3, x3);
    assert Apply1(RamN, r3, x3) == r3[0 := TX_CS_WORD];
  }

  /** Replaying CAN0_Transmitter's trace clears MB0's flag and no other. */
  lemma TransmitClearsMb0Flag(flags0: Word)
    ensures Replayed(Iflag1, flags0, TransmitLog()) == W1C(flags0, CLEAN_MB0)
  {
    var t := TransmitLog();
    assert t == [t[0]] + t[1..];
    assert Untouched(Iflag1, t[1..]);
    ApplyWritesCons(Iflag1, [flags0], t[0], t[1..]);
    ApplyWritesUntouched(Iflag1, [W1C(flags0, CLEAN_MB0)], t[1..]);
  }

  /** The reads of the receive snapshot store nothing. */
  lemma ReceiveReadsStoreNothing(ram: seq<Word>, reg: Reg)
    requires |ram| == RAM_LENGTH
    ensures Untouched(reg, FieldReads(ram)) && Untouched(reg, DataReads(ram, MAX_DATA))
  {
  }

  /** The unlock accesses store only into IFLAG1, and that store comes last. */
  lemma UnlockStores(ram: seq<Word>, timer: Word, reg: Reg)
    requires |ram| == RAM_LENGTH
    ensures reg != Iflag1 ==> Untouched(reg, UnlockAccesses(ram, timer))
    ensures Untouched(reg, UnlockAccesses(ram, timer)[..2])
  {
  }

  /** Replaying CAN0_Receiver's trace stores nothing into RAMn. */
  lemma ReceiveKeepsRam(ram: seq<Word>, timer: Word)
    requires |ram| == RAM_LENGTH
    ensures ApplyWrites(RamN, ram, ReceiveLog(ram, timer)) == ram
  {
    ReceiveReadsStoreNothing(ram, RamN);
    UnlockStores(ram, timer, RamN);
    UntouchedAppend(RamN, FieldReads(ram), DataReads(ram, MAX_DATA));
    UntouchedAppend(RamN, FieldReads(ram) + DataReads(ram, MAX_DATA), UnlockAccesses(ram, timer));
    ApplyWritesUntouched(RamN, ram, ReceiveLog(ram, timer));
  }

  /** Replaying CAN0_Receiver's trace clears MB4's flag and no other. */
  lemma ReceiveClearsMb4Flag(ram: seq<Word>, timer: Word, flags0: Word)
    requires |ram| == RAM_LENGTH
    ensures Replayed(Iflag1, flags0, ReceiveLog(ram, timer)) == W1C(flags0, MB4_FLAG)
  {
    var u := UnlockAccesses(ram, timer);
    var head := FieldReads(ram) + DataReads(ram, MAX_DATA) + u[..2];
    ReceiveReadsStoreNothing(ram, Iflag1);
    UnlockStores(ram, timer, Iflag1);
    UntouchedAppend(Iflag1, FieldReads(ram), DataReads(ram, MAX_DATA));
    UntouchedAppend(Iflag1, FieldReads(ram) + DataReads(ram, MAX_DATA), u[..2]);
    assert u == u[..2] + [u[2]];
    assert ReceiveLog(ram, timer) == head + [u[2]];
    ApplyWritesAppend(Iflag1, [flags0], head, [u[2]]);
    ApplyWritesUntouched(Iflag1, [flags0], head);
    ApplyWritesOne(Iflag1, [flags0], u[2]);
  }
}
