/** The message-buffer RAM layout and the fixed words of the FlexCAN0 driver
    (the #defines at the top of src/CAN.c and the constants its functions
    store). RAMn is a flat array of 32 message buffers of 4 words each:
    word 0 control/status, word 1 identifier, words 2-3 data. */
module CanLayout {
  import opened FlexCanRegs

  const MESSAGES_BUFF: nat := 32        // number of message buffers
  const WORDS_PER_MB: nat := 4          // words per message buffer
  const RAM_LENGTH: nat := 128          // words of RAMn
  const MAX_DATA: nat := 2              // data words per frame
  const MB_FILT: nat := 16              // individual masks programmed
  const CHECK_ID: Word := 0xFFFF_FFFF   // individual mask: check every identifier bit
  const CHECK_ALL_ID: Word := 0x1FFF_FFFF // global acceptance mask
  const RX_MB4: nat := 16               // first word of message buffer 4
  const CODE_FIELD_4: Word := 0x0400_0000 // control/status word arming MB4 (CODE = EMPTY)
  const RX_ID_WORD: Word := 0x1444_0000 // MB4 identifier word: standard ID 0x511
  const CANFD_NOT_USED: Word := 0x0000_001F // final MCR value
  const CLEAN_MB0: Word := 0x0000_0001  // IFLAG1 bit of MB0

  /** `DATA_LENGTH_MB`, used by the receiver for MB4's data offset, is defined
      nowhere in the driver; it is taken to be the words per buffer. */
  const DATA_LENGTH_MB: nat := WORDS_PER_MB

  /** IFLAG1 bit of MB4, written by the receiver to release the buffer. */
  const MB4_FLAG: Word := 0x0000_0010

  /** The words the transmitter stores into MB0. */
  const TX_DATA_WORD0: Word := 0xA511_2233
  const TX_DATA_WORD1: Word := 0x4455_6677
  const TX_ID_WORD: Word := 0x1554_0000  // standard ID 0x555
  const TX_CS_WORD: Word := 0x0C40_0000 | (8 << CS_DLC_SHIFT)

  /** Index in RAMn of word `w` of message buffer `mb`. */
  function WordIndex(mb: nat, w: nat): (i: nat)
    requires mb < MESSAGES_BUFF && w < WORDS_PER_MB
    ensures i < RAM_LENGTH
    ensures i / WORDS_PER_MB == mb && i % WORDS_PER_MB == w
  {
    mb * WORDS_PER_MB + w
  }

  /** The four words of message buffer `mb`. */
  function MbWords(ram: seq<Word>, mb: nat): (r: seq<Word>)
    requires |ram| == RAM_LENGTH && mb < MESSAGES_BUFF
    ensures |r| == WORDS_PER_MB
    ensures forall w :: 0 <= w < WORDS_PER_MB ==> r[w] == ram[WordIndex(mb, w)]
  {
    ram[mb * WORDS_PER_MB .. mb * WORDS_PER_MB + WORDS_PER_MB]
  }

  /** The layout constants agree with each other: the RAM holds exactly the
      buffers, the words armed at init are MB4's first two words, the words
      the receiver reads are MB4's, and the transmit words are MB0's. */
  lemma LayoutConsistent()
    ensures RAM_LENGTH == MESSAGES_BUFF * WORDS_PER_MB
    ensures RX_MB4 == WordIndex(4, 0) && RX_MB4 + 1 == WordIndex(4, 1)
    ensures 4 * WORDS_PER_MB == WordIndex(4, 0) && 4 * WORDS_PER_MB + 1 == WordIndex(4, 1)
    ensures MAX_DATA == 2
    ensures 4 * DATA_LENGTH_MB + 2 == WordIndex(4, 2) && 4 * DATA_LENGTH_MB + 3 == WordIndex(4, 3)
    ensures forall w :: 0 <= w < WORDS_PER_MB ==> 0 * WORDS_PER_MB + w == WordIndex(0, w)
    ensures MB_FILT <= MESSAGES_BUFF
  {
  }

  /** The transmit buffer MB0 and the receive buffer MB4 share no RAM word. */
  lemma TxRxBuffersDisjoint(w1: nat, w2: nat)
    requires w1 < WORDS_PER_MB && w2 < WORDS_PER_MB
    ensures WordIndex(0, w1) != WordIndex(4, w2)
  {
  }

  /** The identifier words hold the identifiers their comments name, in the
      standard-identifier field, with every other identifier bit clear. */
  lemma IdWordsMatchComments()
    ensures RX_ID_WORD == 0x511 << ID_STD_SHIFT && IdStd(RX_ID_WORD) == 0x511
    ensures TX_ID_WORD == 0x555 << ID_STD_SHIFT && IdStd(TX_ID_WORD) == 0x555
    ensures RX_ID_WORD & !ID_STD_MASK == 0 && TX_ID_WORD & !ID_STD_MASK == 0
  {
  }

  /** The transmit control/status word: CODE = 0xC (transmit data frame),
      SRR = 1, IDE = 0 (standard identifier), RTR = 0 (data frame),
      DLC = 8 bytes, nothing else set. */
  lemma TxControlWordFields()
    ensures TX_CS_WORD == 0x0C48_0000
    ensures CsCode(TX_CS_WORD) == CODE_TX_DATA && CsDlc(TX_CS_WORD) == 8
    ensures TX_CS_WORD & CS_SRR_MASK != 0
    ensures TX_CS_WORD & CS_IDE_MASK == 0 && TX_CS_WORD & CS_RTR_MASK == 0
    ensures CsTimeStamp(TX_CS_WORD) == 0
  {
  }

  /** The word that arms MB4: CODE = EMPTY (ready to receive), DLC = 0,
      standard identifier. */
  lemma RxControlWordFields()
    ensures CsCode(CODE_FIELD_4) == CODE_RX_EMPTY && CsDlc(CODE_FIELD_4) == 0
    ensures CODE_FIELD_4 & CS_IDE_MASK == 0
  {
  }

  /** The flag words name one buffer each: bit 0 is MB0's flag, bit 4 MB4's. */
  lemma FlagWordsNameTheirBuffers()
    ensures CLEAN_MB0 == 1 << 0 && MB4_FLAG == 1 << 4
  {
  }

  /** Storing CLEAN_MB0 into IFLAG1 clears MB0's flag and keeps a pending
      MB4 flag. */
  lemma TransmitFlagClearKeepsMb4(flags: Word)
    ensures W1C(flags, CLEAN_MB0) & CLEAN_MB0 == 0
    ensures W1C(flags, CLEAN_MB0) & MB4_FLAG == flags & MB4_FLAG
  {
  }

  /** Storing MB4's flag into IFLAG1 clears it and keeps a pending MB0 flag. */
  lemma ReceiveFlagClearKeepsMb0(flags: Word)
    ensures W1C(flags, MB4_FLAG) & MB4_FLAG == 0
    ensures W1C(flags, MB4_FLAG) & CLEAN_MB0 == flags & CLEAN_MB0
  {
  }

  /** Both flag clears, MB0's first, leave every flag but those of MB0 and MB4. */
  lemma FlagClearsMb0First(flags: Word)
    ensures W1C(W1C(flags, CLEAN_MB0), MB4_FLAG) == flags & 0xFFFF_FFEE
  {
  }

  /** Both flag clears, MB4's first, leave every flag but those of MB0 and MB4. */
  lemma FlagClearsMb4First(flags: Word)
    ensures W1C(W1C(flags, MB4_FLAG), CLEAN_MB0) == flags & 0xFFFF_FFEE
  {
  }

  /** The two flag clears do not interfere: their order does not matter. */
  lemma FlagClearsCommute(flags: Word)
    ensures W1C(W1C(flags, CLEAN_MB0), MB4_FLAG) == W1C(W1C(flags, MB4_FLAG), CLEAN_MB0)
  {
    FlagClearsMb0First(flags);
    FlagClearsMb4First(flags);
  }

  /** RAMn after CAN0_init: message buffer 4 holds the arming control word and
      its identifier word; every other word is zero. */
  function InitRam(): (r: seq<Word>)
    ensures |r| == RAM_LENGTH
    ensures r[RX_MB4] == CODE_FIELD_4 && r[RX_MB4 + 1] == RX_ID_WORD
    ensures forall i :: 0 <= i < RAM_LENGTH && i != RX_MB4 && i != RX_MB4 + 1 ==> r[i] == 0
  {
    seq(RAM_LENGTH, i => 0 as Word)[RX_MB4 := CODE_FIELD_4][RX_MB4 + 1 := RX_ID_WORD]
  }

  /** Buffer view of InitRam: MB4 is armed for reception of standard ID 0x511
      and every other buffer is all zero (CODE = INACTIVE). */
  lemma InitRamBuffers(mb: nat)
    requires mb < MESSAGES_BUFF
    ensures mb == 4 ==> MbWords(InitRam(), mb) == [CODE_FIELD_4, RX_ID_WORD, 0, 0]
    ensures mb != 4 ==> MbWords(InitRam(), mb) == [0, 0, 0, 0]
  {
    var r := MbWords(InitRam(), mb);
    if mb == 4 {
      assert r == [r[0], r[1], r[2], r[3]];
    } else {
      assert forall w :: 0 <= w < WORDS_PER_MB ==> WordIndex(mb, w) / WORDS_PER_MB != 4;
      assert r == [r[0], r[1], r[2], r[3]];
    }
  }

  /** RAMn after CAN0_Transmitter, as a function of RAMn before it: MB0's
      data words, identifier word and control word, in that order. */
  function TransmitRam(ram: seq<Word>): (r: seq<Word>)
    requires |ram| == RAM_LENGTH
    ensures |r| == RAM_LENGTH
    ensures MbWords(r, 0) == [TX_CS_WORD, TX_ID_WORD, TX_DATA_WORD0, TX_DATA_WORD1]
    ensures r[WORDS_PER_MB..] == ram[WORDS_PER_MB..]
  {
    var r := ram[2 := TX_DATA_WORD0][3 := TX_DATA_WORD1][1 := TX_ID_WORD][0 := TX_CS_WORD];
    assert MbWords(r, 0) == [r[0], r[1], r[2], r[3]];
    r
  }

  /** Every message buffer other than MB0 is unchanged by the transmitter. */
  lemma TransmitKeepsOtherBuffers(ram: seq<Word>, mb: nat)
    requires |ram| == RAM_LENGTH && 0 < mb < MESSAGES_BUFF
    ensures MbWords(TransmitRam(ram), mb) == MbWords(ram, mb)
  {
    var r := TransmitRam(ram);
    forall w | 0 <= w < WORDS_PER_MB
      ensures MbWords(r, mb)[w] == MbWords(ram, mb)[w]
    {
      var i := WordIndex(mb, w);
      assert r[WORDS_PER_MB..][i - WORDS_PER_MB] == ram[WORDS_PER_MB..][i - WORDS_PER_MB];
    }
  }
}
