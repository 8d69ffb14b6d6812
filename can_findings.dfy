/** Two places where src/CAN.c does not do what its comments say, each modelled
    as written next to the evidently intended version. */
module CanFindings {
  import opened FlexCanRegs
  import opened CanLayout
  import opened CanFrames
  import opened CanTrace

  // ---------------------------------------------------------------------
  // The release waits of CAN0_init (src/CAN.c lines 105 and 108)

  /** The guard of the wait for leaving freeze mode, as written with the
      logical `&&`: never true, whatever MCR holds. */
  function UnfreezeWaitGuardAsWritten(mcr: Word): (r: Word)
    ensures r == 0
  {
    LogicalAnd(mcr, MCR_FRZACK_MASK) >> MCR_FRZACK_SHIFT
  }

  /** The guard of the wait for the module to be ready, as written with `&&`:
      never true either. */
  function ReadyWaitGuardAsWritten(mcr: Word): (r: Word)
    ensures r == 0
  {
    LogicalAnd(mcr, MCR_NOTRDY_MASK) >> MCR_NOTRDY_SHIFT
  }

  /** Right after `MCR = CANFD_NOT_USED` the module is still frozen and not
      yet synchronised, FRZACK and NOTRDY both set: the guards with the
      bitwise `&`, FrzAckBit and NotRdyBit, keep waiting, the written ones
      fall through at once. */
  lemma ReleaseWaitsFallThrough()
    ensures var mcr := CANFD_NOT_USED | MCR_FRZACK_MASK | MCR_NOTRDY_MASK;
      && UnfreezeWaitGuardAsWritten(mcr) == 0 && FrzAckBit(mcr) != 0
      && ReadyWaitGuardAsWritten(mcr) == 0 && NotRdyBit(mcr) != 0
  {
  }

  /** MCR as the release waits read it once the driver has stored 0x1F:
      the driver's bits, with FRZACK and NOTRDY as the module drives them
      while it leaves freeze mode and synchronises to the bus. */
  function ReleasedMcr(frozen: bool, notReady: bool): (r: Word)
    ensures FrzAckBit(r) != 0 <==> frozen
    ensures NotRdyBit(r) != 0 <==> notReady
    ensures r & !(MCR_FRZACK_MASK | MCR_NOTRDY_MASK) == CANFD_NOT_USED
  {
    (if frozen then MCR_FRZACK_MASK else 0) | (if notReady then MCR_NOTRDY_MASK else 0) | CANFD_NOT_USED
  }

  /** The first `n + 1` MCR reads of the intended unfreeze wait, when the
      module clears FRZACK on read number `delay` (counting from 0); the
      module is not ready yet throughout. */
  function UnfreezeReads(delay: nat, n: nat): (t: seq<Access>)
    ensures |t| == n + 1
  {
    seq(n + 1, k requires 0 <= k < n + 1 => Read(Mcr, 0, ReleasedMcr(k < delay, true)))
  }

  /** The first `n + 1` MCR reads of the intended ready wait, when the
      module clears NOTRDY on read number `delay`. */
  function ReadyReads(delay: nat, n: nat): (t: seq<Access>)
    ensures |t| == n + 1
  {
    seq(n + 1, k requires 0 <= k < n + 1 => Read(Mcr, 0, ReleasedMcr(false, k < delay)))
  }

  /** One more poll of the unfreeze wait appends one more read. */
  lemma UnfreezeReadsStep(delay: nat, n: nat)
    ensures UnfreezeReads(delay, n + 1) == UnfreezeReads(delay, n) + [Read(Mcr, 0, ReleasedMcr(n + 1 < delay, true))]
  {
  }

  /** One more poll of the ready wait appends one more read. */
  lemma ReadyReadsStep(delay: nat, n: nat)
    ensures ReadyReads(delay, n + 1) == ReadyReads(delay, n) + [Read(Mcr, 0, ReleasedMcr(false, n + 1 < delay))]
  {
  }

  /** The intended waits stop exactly at the first read that shows the
      module out of freeze mode, then at the first that shows it ready:
      every earlier read still has the bit set. */
  lemma IntendedWaitsStopAtFirstClear(unfreezeDelay: nat, readyDelay: nat)
    ensures forall k :: 0 <= k < unfreezeDelay ==> FrzAckBit(UnfreezeReads(unfreezeDelay, unfreezeDelay)[k].value) != 0
    ensures FrzAckBit(UnfreezeReads(unfreezeDelay, unfreezeDelay)[unfreezeDelay].value) == 0
    ensures forall k :: 0 <= k < readyDelay ==> NotRdyBit(ReadyReads(readyDelay, readyDelay)[k].value) != 0
    ensures NotRdyBit(ReadyReads(readyDelay, readyDelay)[readyDelay].value) == 0
  {
    var u := UnfreezeReads(unfreezeDelay, unfreezeDelay);
    forall k | 0 <= k <= unfreezeDelay
      ensures FrzAckBit(u[k].value) != 0 <==> k < unfreezeDelay
    {
      assert u[k].value == ReleasedMcr(k < unfreezeDelay, true);
    }
    var r := ReadyReads(readyDelay, readyDelay);
    forall k | 0 <= k <= readyDelay
      ensures NotRdyBit(r[k].value) != 0 <==> k < readyDelay
    {
      assert r[k].value == ReleasedMcr(false, k < readyDelay);
    }
  }

  // ---------------------------------------------------------------------
  // The time stamp of the receive snapshot (src/CAN.c line 150)

  /** The snapshot as written differs from the one of MB4 in the time stamp
      alone, and agrees with it exactly when MB0 and MB4 carry the same time
      stamp. */
  lemma AsWrittenAgreesExceptTimeStamp(ram: seq<Word>)
    requires |ram| == RAM_LENGTH
    ensures ReceivedAsWritten(ram) == Received(ram).(timeStamp := CsTimeStamp(ram[0]))
    ensures ReceivedAsWritten(ram) == Received(ram) <==> CsTimeStamp(ram[0]) == CsTimeStamp(ram[RX_MB4])
  {
  }

  /** The snapshot of MB4 depends on MB4 alone. */
  lemma ReceivedDependsOnlyOnMb4(ram1: seq<Word>, ram2: seq<Word>)
    requires |ram1| == RAM_LENGTH && |ram2| == RAM_LENGTH
    requires MbWords(ram1, 4) == MbWords(ram2, 4)
    ensures Received(ram1) == Received(ram2)
  {
  }

  /** Transmitting on MB0 does not change what the corrected receiver reads. */
  lemma TransmitKeepsReceived(ram: seq<Word>)
    requires |ram| == RAM_LENGTH
    ensures Received(TransmitRam(ram)) == Received(ram)
  {
    TransmitKeepsOtherBuffers(ram, 4);
    ReceivedDependsOnlyOnMb4(TransmitRam(ram), ram);
  }

  /** As written, a receive after a transmit reports the time stamp field of
      the transmitter's control word, 0, instead of MB4's: whenever the
      received frame carries a nonzero time stamp the two snapshots differ. */
  lemma TimeStampAsWrittenFollowsTransmit(ram: seq<Word>)
    requires |ram| == RAM_LENGTH
    ensures ReceivedAsWritten(TransmitRam(ram)).timeStamp == 0
    ensures CsTimeStamp(ram[RX_MB4]) != 0 ==> ReceivedAsWritten(TransmitRam(ram)) != Received(TransmitRam(ram))
  {
    var r := TransmitRam(ram);
    TxControlWordFields();
    assert MbWords(r, 0)[0] == TX_CS_WORD;
    assert r[RX_MB4] == ram[RX_MB4] by {
      assert r[WORDS_PER_MB..][RX_MB4 - WORDS_PER_MB] == ram[WORDS_PER_MB..][RX_MB4 - WORDS_PER_MB];
    }
    AsWrittenAgreesExceptTimeStamp(r);
  }
}
