/** The FlexCAN0 driver of src/CAN.c: the registers it programs, the receive
    snapshot `rx`, and CAN0_SetBitTime, CAN0_init, CAN0_Transmitter and
    CAN0_Receiver as methods that change them in the order the driver does.
    Every store and every plain load goes through one access method below,
    which performs it and extends a ghost trace by it; the trace passes
    through the methods in call order, so its order is the order of the
    accesses, and the public operations append it to the ghost `log`. */
module CanDriver {
  import opened FlexCanRegs
  import opened CanTypes
  import opened CanTiming
  import opened CanLayout
  import opened CanFrames
  import opened CanTrace
  import opened CanFindings

  /** The FlexCAN0 register block as the driver sees it, together with the
      driver's global receive snapshot. */
  class FlexCan0 {
    var MCR: Word
    var CTRL1: Word
    var IFLAG1: Word
    var RXMGMASK: Word
    var TIMER: Word              // free-running timer; reading it unlocks the buffers
    const RAMn: array<Word>      // the 32 message buffers, four words each
    const RXIMR: array<Word>     // individual acceptance masks of the first 16 buffers
    var rx: RxFrame              // the global `rx` of src/CAN.c
    ghost var log: seq<Access>   // every store and plain load so far, in program order

    ghost predicate Valid()
      reads this
    {
      RAMn.Length == RAM_LENGTH && RXIMR.Length == MB_FILT && RAMn != RXIMR
      && |rx.data| == MAX_DATA
    }

    /** The module out of reset, with the given register values; the RAM and
        the masks hold whatever they hold. */
    constructor (mcr: Word, ctrl1: Word, iflag1: Word, rxmgmask: Word, timer: Word)
      ensures Valid() && fresh(RAMn) && fresh(RXIMR)
      ensures MCR == mcr && CTRL1 == ctrl1 && IFLAG1 == iflag1 && RXMGMASK == rxmgmask && TIMER == timer
      ensures rx == RxFrame(0, 0, 0, [0, 0], 0) && log == []
    {
      MCR, CTRL1, IFLAG1, RXMGMASK, TIMER := mcr, ctrl1, iflag1, rxmgmask, timer;
      RAMn := new Word[RAM_LENGTH];
      RXIMR := new Word[MB_FILT];
      rx := RxFrame(0, 0, 0, [0, 0], 0);
      log := [];
    }

    // -------------------------------------------------------------------
    // Register accesses: each performs one store or load and records it
    // after the trace `t0`. A read-modify-write such as `CTRL1 |= m` is one
    // store of the new value.

    method StoreMcr(v: Word, ghost t0: seq<Access>) returns (ghost t: seq<Access>)
      modifies this`MCR
      ensures MCR == v && t == t0 + [Write(Mcr, 0, v)]
    {
      MCR := v;
      t := t0 + [Write(Mcr, 0, v)];
    }

    /** A load of MCR while the module enters freeze mode: it shows the
        bits `stored` that the driver last stored, with FRZACK driven by the
        module (`acked`). */
    method PollMcr(stored: Word, acked: bool, ghost t0: seq<Access>) returns (v: Word, ghost t: seq<Access>)
      modifies this`MCR
      ensures MCR == WithFrzAck(stored, acked) && v == MCR
      ensures t == t0 + [Read(Mcr, 0, v)]
    {
      MCR := WithFrzAck(stored, acked);
      v := MCR;
      t := t0 + [Read(Mcr, 0, v)];
    }

    /** A load of MCR that the module does not change. */
    method LoadMcr(ghost t0: seq<Access>) returns (v: Word, ghost t: seq<Access>)
      ensures v == MCR && t == t0 + [Read(Mcr, 0, v)]
    {
      v := MCR;
      t := t0 + [Read(Mcr, 0, v)];
    }

    method StoreCtrl1(v: Word, ghost t0: seq<Access>) returns (ghost t: seq<Access>)
      modifies this`CTRL1
      ensures CTRL1 == v && t == t0 + [Write(Ctrl1, 0, v)]
    {
      CTRL1 := v;
      t := t0 + [Write(Ctrl1, 0, v)];
    }

    /** A store into the write-1-to-clear IFLAG1. */
    method StoreIflag1(v: Word, ghost t0: seq<Access>) returns (ghost t: seq<Access>)
      modifies this`IFLAG1
      ensures IFLAG1 == W1C(old(IFLAG1), v) && t == t0 + [Write(Iflag1, 0, v)]
    {
      IFLAG1 := W1C(IFLAG1, v);
      t := t0 + [Write(Iflag1, 0, v)];
    }

    method StoreRxMgMask(v: Word, ghost t0: seq<Access>) returns (ghost t: seq<Access>)
      modifies this`RXMGMASK
      ensures RXMGMASK == v && t == t0 + [Write(RxMgMask, 0, v)]
    {
      RXMGMASK := v;
      t := t0 + [Write(RxMgMask, 0, v)];
    }

    method LoadTimer(ghost t0: seq<Access>) returns (v: Word, ghost t: seq<Access>)
      ensures v == TIMER && t == t0 + [Read(Timer, 0, v)]
    {
      v := TIMER;
      t := t0 + [Read(Timer, 0, v)];
    }

    method StoreRam(i: nat, v: Word, ghost t0: seq<Access>) returns (ghost t: seq<Access>)
      requires Valid() && i < RAM_LENGTH
      modifies RAMn
      ensures RAMn[..] == old(RAMn[..])[i := v] && t == t0 + [Write(RamN, i, v)]
    {
      RAMn[i] := v;
      t := t0 + [Write(RamN, i, v)];
    }

    method LoadRam(i: nat, ghost t0: seq<Access>) returns (v: Word, ghost t: seq<Access>)
      requires Valid() && i < RAM_LENGTH
      ensures v == RAMn[i] && t == t0 + [Read(RamN, i, v)]
    {
      v := RAMn[i];
      t := t0 + [Read(RamN, i, v)];
    }

    method StoreRxImr(i: nat, v: Word, ghost t0: seq<Access>) returns (ghost t: seq<Access>)
      requires Valid() && i < MB_FILT
      modifies RXIMR
      ensures RXIMR[..] == old(RXIMR[..])[i := v] && t == t0 + [Write(RxImr, i, v)]
    {
      RXIMR[i] := v;
      t := t0 + [Write(RxImr, i, v)];
    }

    // -------------------------------------------------------------------
    // CAN0_SetBitTime and CAN0_init

    /** CAN0_SetBitTime: the requested rate selects nothing; CTRL1 gets the
        fixed timing bits OR-ed in, by one store. */
    method SetBitTime(bitTime: BitTime, ghost t0: seq<Access>) returns (ghost t: seq<Access>)
      requires Valid()
      modifies this`CTRL1
      ensures Valid()
      ensures CTRL1 == WithBitTiming(old(CTRL1))
      ensures t == t0 + [Write(Ctrl1, 0, CTRL1)]
    {
      match bitTime {
        case B10kHz =>
        case B20kHz =>
        case B50kHz =>
        case B125kHz =>
        case B250kHz =>
        case B500kHz =>
        case B800kHz =>
        case B1MHz =>
      }
      t := StoreCtrl1(SetBits(CTRL1, BIT_TIMING), t0);
    }

    /** CAN0_init, phase by phase, each phase extending the trace.
        `ackDelay` is the environment: the number of MCR polls after which
        the module reports FRZACK. */
    method Init(clkSource: ClkSource, bitTime: BitTime, ackDelay: nat)
      requires Valid()
      modifies this`MCR, this`CTRL1, this`RXMGMASK, this`log, RAMn, RXIMR
      ensures Valid()
      ensures MCR == CANFD_NOT_USED
      ensures CTRL1 == WithBitTiming(ClockSelect(old(CTRL1), clkSource))
      ensures RXMGMASK == CHECK_ALL_ID
      ensures RAMn[..] == InitRam()
      ensures RXIMR[..] == seq(MB_FILT, i requires 0 <= i < MB_FILT => CHECK_ID)
      ensures log == old(log) + InitLog(old(MCR), old(CTRL1), clkSource, ackDelay)
    {
      ghost var mcr0, ctrl10 := MCR, CTRL1;
      ghost var t0: seq<Access> := [];
      ghost var t1 := SelectClock(clkSource, t0);
      assert t1 == t0 + InitSelectLog(mcr0, ctrl10, clkSource);
      ghost var t2 := AwaitFreezeAck(ackDelay, t1);
      ghost var t3 := ConfigureFrozen(bitTime, t2);
      assert t3 == t2 + InitTimingLog(mcr0, ctrl10, clkSource);
      ghost var t4 := ClearRam(t3);
      ghost var t5 := CheckAllIds(t4);
      ghost var t6 := ArmMb4(t5);
      ghost var t7 := LeaveFreeze(t6);
      InitLogAssembled(mcr0, ctrl10, clkSource, ackDelay);
      assert t0 + InitSelectLog(mcr0, ctrl10, clkSource) == InitSelectLog(mcr0, ctrl10, clkSource);
      log := log + t7;
      assert RAMn[..] == InitRam();
    }

    /** Lines 55-70 of CAN0_init: clock gate, module disable, clock source,
        module enable. */
    method SelectClock(clkSource: ClkSource, ghost t0: seq<Access>) returns (ghost t: seq<Access>)
      requires Valid()
      modifies this`MCR, this`CTRL1
      ensures Valid()
      ensures MCR == Enabled(old(MCR)) && CTRL1 == ClockSelect(old(CTRL1), clkSource)
      ensures t == t0 + [EnableClock, Write(Mcr, 0, Disabled(old(MCR))), Write(Ctrl1, 0, CTRL1), Write(Mcr, 0, MCR)]
    {
      t := t0 + [EnableClock];
      t := StoreMcr(SetBits(MCR, MCR_MDIS_MASK), t);
      t := ChooseClockSource(clkSource, t);
      t := StoreMcr(ClearBits(MCR, MCR_MDIS_MASK), t);
    }

    /** Lines 61-66 of CAN0_init: CLKSRC cleared for the oscillator, set for
        the peripheral clock. */
    method ChooseClockSource(clkSource: ClkSource, ghost t0: seq<Access>) returns (ghost t: seq<Access>)
      modifies this`CTRL1
      ensures CTRL1 == ClockSelect(old(CTRL1), clkSource)
      ensures t == t0 + [Write(Ctrl1, 0, CTRL1)]
    {
      if clkSource == OscillatorSrc {
        t := StoreCtrl1(ClearBits(CTRL1, CTRL1_CLKSRC_MASK), t0);
      } else {
        t := StoreCtrl1(SetBits(CTRL1, CTRL1_CLKSRC_MASK), t0);
      }
    }

    /** Line 73 of CAN0_init, the wait for FRZACK. `ackDelay` is the
        environment: before each MCR read the module drives FRZACK, setting
        it on poll number `ackDelay`. */
    method AwaitFreezeAck(ackDelay: nat, ghost t0: seq<Access>) returns (ghost t: seq<Access>)
      modifies this`MCR
      ensures MCR == WithFrzAck(old(MCR), true)
      ensures t == t0 + FreezeWaitReads(old(MCR), ackDelay, ackDelay)
    {
      var stored := MCR;
      var polls: nat := 0;
      var mcr: Word;
      ghost var loads: seq<Access> := [];
      mcr, loads := PollMcr(stored, polls == ackDelay, loads);
      PollSeesAck(stored, polls == ackDelay);
      while FrzAckBit(mcr) == 0
        invariant polls <= ackDelay && stored == old(MCR)
        invariant MCR == mcr == WithFrzAck(stored, polls == ackDelay)
        invariant loads == FreezeWaitReads(stored, ackDelay, polls)
        invariant FrzAckBit(mcr) != 0 <==> polls == ackDelay
        decreases ackDelay - polls
      {
        FreezeWaitReadsStep(stored, ackDelay, polls);
        PollSeesAck(stored, polls + 1 == ackDelay);
        polls := polls + 1;
        mcr, loads := PollMcr(stored, polls == ackDelay, loads);
      }
      t := t0 + loads;
    }

    /** Lines 76-82 of CAN0_init, with the module frozen: bit timing, FIFO
        off, self reception on. */
    method ConfigureFrozen(bitTime: BitTime, ghost t0: seq<Access>) returns (ghost t: seq<Access>)
      requires Valid()
      modifies this`MCR, this`CTRL1
      ensures Valid()
      ensures CTRL1 == WithBitTiming(old(CTRL1))
      ensures MCR == ClearBits(ClearBits(old(MCR), MCR_RFEN_MASK), MCR_SRXDIS_MASK)
      ensures t == t0 + [Write(Ctrl1, 0, CTRL1), Write(Mcr, 0, ClearBits(old(MCR), MCR_RFEN_MASK)), Write(Mcr, 0, MCR)]
    {
      t := SetBitTime(bitTime, t0);
      t := StoreMcr(ClearBits(MCR, MCR_RFEN_MASK), t);
      t := StoreMcr(ClearBits(MCR, MCR_SRXDIS_MASK), t);
    }

    /** Lines 85-86 of CAN0_init: every RAMn word is zeroed, in index order. */
    method ClearRam(ghost t0: seq<Access>) returns (ghost t: seq<Access>)
      requires Valid()
      modifies RAMn
      ensures Valid()
      ensures RAMn[..] == seq(RAM_LENGTH, i requires 0 <= i < RAM_LENGTH => 0 as Word)
      ensures t == t0 + RamClearWrites(RAM_LENGTH)
    {
      ghost var stores: seq<Access> := [];
      for counter := 0 to RAM_LENGTH
        invariant forall k :: 0 <= k < counter ==> RAMn[k] == 0
        invariant stores == RamClearWrites(counter)
      {
        stores := StoreRam(counter, 0, stores);
      }
      t := t0 + stores;
    }

    /** Lines 89-90 of CAN0_init: every individual mask checks every bit. */
    method CheckAllIds(ghost t0: seq<Access>) returns (ghost t: seq<Access>)
      requires Valid()
      modifies RXIMR
      ensures Valid()
      ensures RXIMR[..] == seq(MB_FILT, i requires 0 <= i < MB_FILT => CHECK_ID)
      ensures t == t0 + MaskWrites(MB_FILT)
    {
      ghost var stores: seq<Access> := [];
      for counter := 0 to MB_FILT
        invariant forall k :: 0 <= k < counter ==> RXIMR[k] == CHECK_ID
        invariant stores == MaskWrites(counter)
      {
        stores := StoreRxImr(counter, CHECK_ID, stores);
      }
      t := t0 + stores;
    }

    /** Lines 93-99 of CAN0_init: the global mask, then MB4 armed for
        reception of standard identifier 0x511. */
    method ArmMb4(ghost t0: seq<Access>) returns (ghost t: seq<Access>)
      requires Valid()
      modifies this`RXMGMASK, RAMn
      ensures Valid()
      ensures RXMGMASK == CHECK_ALL_ID
      ensures RAMn[..] == old(RAMn[..])[RX_MB4 := CODE_FIELD_4][RX_MB4 + 1 := RX_ID_WORD]
      ensures t == t0 + InitArmLog()
    {
      t := StoreRxMgMask(CHECK_ALL_ID, t0);
      t := StoreRam(RX_MB4, CODE_FIELD_4, t);
      t := StoreRam(RX_MB4 + 1, RX_ID_WORD, t);
    }

    /** Lines 102-108 of CAN0_init: leave freeze mode, then the two release
        waits. Each tests `(MCR && mask) >> shift`, which is 0 for every MCR
        value, so each reads MCR once and falls through. */
    method LeaveFreeze(ghost t0: seq<Access>) returns (ghost t: seq<Access>)
      modifies this`MCR
      ensures MCR == CANFD_NOT_USED
      ensures t == t0 + InitReleaseLog()
    {
      t := StoreMcr(CANFD_NOT_USED, t0);
      var mcr;
      mcr, t := LoadMcr(t);
      var unfrozen := UnfreezeWaitGuardAsWritten(mcr);
      mcr, t := LoadMcr(t);
      var notReady := ReadyWaitGuardAsWritten(mcr);
      assert unfrozen == 0 && notReady == 0;
    }

    /** A load of MCR during the intended release waits; `frozen` and
        `notReady` are the module's drive of FRZACK and NOTRDY just before it. */
    method PollRelease(frozen: bool, notReady: bool, ghost t0: seq<Access>) returns (v: Word, ghost t: seq<Access>)
      modifies this`MCR
      ensures MCR == ReleasedMcr(frozen, notReady) && v == MCR
      ensures t == t0 + [Read(Mcr, 0, v)]
    {
      MCR := ReleasedMcr(frozen, notReady);
      v := MCR;
      t := t0 + [Read(Mcr, 0, v)];
    }

    /** Lines 102-108 of CAN0_init as evidently intended, with the bitwise
        `&` of line 73 in both guards. `unfreezeDelay` and `readyDelay` are
        the environment: the polls after which the module clears FRZACK, and
        then NOTRDY. The waits end with the module out of freeze mode and
        ready. */
    method LeaveFreezeIntended(unfreezeDelay: nat, readyDelay: nat, ghost t0: seq<Access>) returns (ghost t: seq<Access>)
      modifies this`MCR
      ensures FrzAckBit(MCR) == 0 && NotRdyBit(MCR) == 0
      ensures MCR == ReleasedMcr(false, false)
      ensures t == t0 + [Write(Mcr, 0, CANFD_NOT_USED)]
                  + UnfreezeReads(unfreezeDelay, unfreezeDelay) + ReadyReads(readyDelay, readyDelay)
    {
      t := StoreMcr(CANFD_NOT_USED, t0);
      var polls: nat := 0;
      var mcr: Word;
      ghost var loads: seq<Access> := [];
      mcr, loads := PollRelease(polls < unfreezeDelay, true, loads);
      while FrzAckBit(mcr) != 0
        invariant polls <= unfreezeDelay
        invariant MCR == mcr == ReleasedMcr(polls < unfreezeDelay, true)
        invariant loads == UnfreezeReads(unfreezeDelay, polls)
        decreases unfreezeDelay - polls
      {
        UnfreezeReadsStep(unfreezeDelay, polls);
        polls := polls + 1;
        mcr, loads := PollRelease(polls < unfreezeDelay, true, loads);
      }
      t := t + loads;
      polls, loads := 0, [];
      mcr, loads := PollRelease(false, polls < readyDelay, loads);
      while NotRdyBit(mcr) != 0
        invariant polls <= readyDelay
        invariant MCR == mcr == ReleasedMcr(false, polls < readyDelay)
        invariant loads == ReadyReads(readyDelay, polls)
        decreases readyDelay - polls
      {
        ReadyReadsStep(readyDelay, polls);
        polls := polls + 1;
        mcr, loads := PollRelease(false, polls < readyDelay, loads);
      }
      t := t + loads;
    }

    // -------------------------------------------------------------------
    // CAN0_Transmitter and CAN0_Receiver

    /** CAN0_Transmitter: clear MB0's flag, then fill MB0, storing the
        control word that activates it last. */
    method Transmitter()
      requires Valid()
      modifies this`IFLAG1, this`log, RAMn
      ensures Valid()
      ensures IFLAG1 == W1C(old(IFLAG1), CLEAN_MB0)
      ensures RAMn[..] == TransmitRam(old(RAMn[..]))
      ensures log == old(log) + TransmitLog()
    {
      ghost var t := StoreIflag1(CLEAN_MB0, []);
      t := StoreRam(0 * WORDS_PER_MB + 2, TX_DATA_WORD0, t);
      t := StoreRam(0 * WORDS_PER_MB + 3, TX_DATA_WORD1, t);
      t := StoreRam(0 * WORDS_PER_MB + 1, TX_ID_WORD, t);
      t := StoreRam(0 * WORDS_PER_MB + 0, TX_CS_WORD, t);
      log := log + t;
    }

    /** CAN0_Receiver: copy MB4's code, identifier, length and data and MB0's
        time stamp into `rx`, read TIMER, clear MB4's flag. */
    method Receiver()
      requires Valid()
      modifies this`rx, this`IFLAG1, this`log
      ensures Valid()
      ensures rx == ReceivedAsWritten(RAMn[..])
      ensures IFLAG1 == W1C(old(IFLAG1), MB4_FLAG)
      ensures log == old(log) + ReceiveLog(RAMn[..], TIMER)
    {
      ghost var ram := RAMn[..];
      ghost var t := ReadFields([]);
      t := CopyData(t);
      t := ReadTimeStampAndRelease(t);
      assert t == ReceiveLog(ram, TIMER);
      log := log + t;
    }

    /** Lines 142-144 of CAN0_Receiver: code, identifier and length of MB4. */
    method ReadFields(ghost t0: seq<Access>) returns (ghost t: seq<Access>)
      requires Valid()
      modifies this`rx
      ensures Valid()
      ensures rx == old(rx).(code := CsCodeLow(RAMn[4 * WORDS_PER_MB]), id := IdField(RAMn[4 * WORDS_PER_MB + 1]),
                             length := CsDlc(RAMn[4 * WORDS_PER_MB]))
      ensures t == t0 + FieldReads(RAMn[..])
    {
      var cs, id;
      cs, t := LoadRam(4 * WORDS_PER_MB, t0);
      rx := rx.(code := CsCodeLow(cs));
      id, t := LoadRam(4 * WORDS_PER_MB + 1, t);
      rx := rx.(id := IdField(id));
      cs, t := LoadRam(4 * WORDS_PER_MB, t);
      rx := rx.(length := CsDlc(cs));
    }

    /** Lines 150-155 of CAN0_Receiver: the time stamp, read from MB0's
        control word, then the unlock sequence: TIMER read, MB4 flag clear. */
    method ReadTimeStampAndRelease(ghost t0: seq<Access>) returns (ghost t: seq<Access>)
      requires Valid()
      modifies this`rx, this`IFLAG1
      ensures Valid()
      ensures rx == old(rx).(timeStamp := CsTimeStamp(RAMn[0 * WORDS_PER_MB + 0]))
      ensures IFLAG1 == W1C(old(IFLAG1), MB4_FLAG)
      ensures t == t0 + UnlockAccesses(RAMn[..], TIMER)
    {
      var cs0, dummy;
      cs0, t := LoadRam(0 * WORDS_PER_MB + 0, t0);
      rx := rx.(timeStamp := CsTimeStamp(cs0));
      dummy, t := LoadTimer(t);
      t := StoreIflag1(MB4_FLAG, t);
    }

    /** The loop of CAN0_Receiver that copies the two data words. */
    method CopyData(ghost t0: seq<Access>) returns (ghost t: seq<Access>)
      requires Valid()
      modifies this`rx
      ensures Valid()
      ensures rx == old(rx).(data := [RAMn[4 * DATA_LENGTH_MB + 2], RAMn[4 * DATA_LENGTH_MB + 2 + 1]])
      ensures t == t0 + DataReads(RAMn[..], MAX_DATA)
    {
      ghost var loads: seq<Access> := [];
      for counter := 0 to MAX_DATA
        invariant |rx.data| == MAX_DATA
        invariant forall k :: 0 <= k < counter ==> rx.data[k] == RAMn[4 * DATA_LENGTH_MB + 2 + k]
        invariant rx == old(rx).(data := rx.data)
        invariant loads == DataReads(RAMn[..], counter)
      {
        var word;
        word, loads := LoadRam(4 * DATA_LENGTH_MB + 2 + counter, loads);
        rx := rx.(data := rx.data[counter := word]);
      }
      assert rx.data == [RAMn[4 * DATA_LENGTH_MB + 2], RAMn[4 * DATA_LENGTH_MB + 2 + 1]];
      t := t0 + loads;
    }
  }
}
