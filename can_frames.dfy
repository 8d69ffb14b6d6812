/** The receive snapshot `rx` and the ways a message buffer's words are read
    into it and written from it. */
module CanFrames {
  import opened FlexCanRegs
  import opened CanLayout

  /** The receive snapshot: code, identifier, length, two data words and time
      stamp, each a 32-bit word. */
  datatype RxFrame = RxFrame(code: Word, id: Word, length: Word, data: seq<Word>, timeStamp: Word)

  /** The field ranges a snapshot decoded from a message buffer can take. */
  predicate InRange(f: RxFrame)
  {
    f.code <= 7 && f.id <= ID_ID_MASK && f.length <= 0xF && f.timeStamp <= 0xFFFF
    && |f.data| == MAX_DATA
  }

  /** The snapshot CAN0_Receiver stores, computed as the driver does: code,
      identifier, length and data from message buffer 4, and the time stamp
      from word 0 of message buffer 0. Only bits 26-24 of the 4-bit CODE field
      are kept. */
  function ReceivedAsWritten(ram: seq<Word>): (f: RxFrame)
    requires |ram| == RAM_LENGTH
    ensures InRange(f)
    ensures f.code == CsCodeLow(MbWords(ram, 4)[0])
    ensures f.id == IdField(MbWords(ram, 4)[1]) && f.length == CsDlc(MbWords(ram, 4)[0])
    ensures f.data == MbWords(ram, 4)[2..]
    ensures f.timeStamp == CsTimeStamp(MbWords(ram, 0)[0])
  {
    var data := [ram[4 * DATA_LENGTH_MB + 2], ram[4 * DATA_LENGTH_MB + 2 + 1]];
    assert MbWords(ram, 4)[2..] == data;
    RxFrame(CsCodeLow(ram[4 * WORDS_PER_MB]), IdField(ram[4 * WORDS_PER_MB + 1]),
            CsDlc(ram[4 * WORDS_PER_MB]), data, CsTimeStamp(ram[0 * WORDS_PER_MB + 0]))
  }

  /** The snapshot of one message buffer, every field taken from that buffer's
      own words. */
  function DecodeMb(mb: seq<Word>): (f: RxFrame)
    requires |mb| == WORDS_PER_MB
    ensures InRange(f)
  {
    RxFrame(CsCodeLow(mb[0]), IdField(mb[1]), CsDlc(mb[0]), mb[2..], CsTimeStamp(mb[0]))
  }

  /** The receive snapshot with the time stamp read from MB4, the buffer the
      other fields come from: the snapshot of message buffer 4 alone. */
  function Received(ram: seq<Word>): (f: RxFrame)
    requires |ram| == RAM_LENGTH
    ensures f == DecodeMb(MbWords(ram, 4))
  {
    var data := [ram[4 * DATA_LENGTH_MB + 2], ram[4 * DATA_LENGTH_MB + 2 + 1]];
    assert MbWords(ram, 4)[2..] == data;
    RxFrame(CsCodeLow(ram[4 * WORDS_PER_MB]), IdField(ram[4 * WORDS_PER_MB + 1]),
            CsDlc(ram[4 * WORDS_PER_MB]), data, CsTimeStamp(ram[4 * WORDS_PER_MB + 0]))
  }

  /** The words of a message buffer that holds snapshot `f`: the control word
      packs code, length and time stamp into their fields. */
  function EncodeMb(f: RxFrame): (mb: seq<Word>)
    requires InRange(f)
    ensures |mb| == WORDS_PER_MB && mb[1] == f.id && mb[2..] == f.data
  {
    [PackCs(f.code, f.length, f.timeStamp), f.id] + f.data
  }

  /** Decoding a buffer written from an in-range snapshot gives the snapshot
      back; with DecodeMb's own contract, the in-range snapshots are exactly
      the ones a buffer can yield. */
  lemma DecodeEncode(f: RxFrame)
    requires InRange(f)
    ensures DecodeMb(EncodeMb(f)) == f
  {
    PackCsCode(f.code, f.length, f.timeStamp);
    PackCsDlc(f.code, f.length, f.timeStamp);
    PackCsTimeStamp(f.code, f.length, f.timeStamp);
    IdFieldOfField(f.id);
  }

  /** Whether a frame with identifier word `id` matches a receive buffer whose
      identifier word is `mbId` under acceptance mask `mask`: every identifier
      bit the mask checks must agree. */
  predicate Matches(mbId: Word, mask: Word, id: Word)
  {
    (mbId ^ id) & mask & ID_ID_MASK == 0
  }

  /** With the masks CAN0_init programs (individual and global), MB4 accepts a
      standard identifier only when it is 0x511, so frames this node transmits
      (identifier 0x555) are never received into MB4. */
  lemma Mb4AcceptsOnlyItsIdentifier(id: Word)
    requires id & !ID_STD_MASK == 0
    ensures Matches(RX_ID_WORD, CHECK_ID, id) <==> IdStd(id) == 0x511
    ensures Matches(RX_ID_WORD, CHECK_ALL_ID, id) <==> IdStd(id) == 0x511
    ensures !Matches(RX_ID_WORD, CHECK_ID, TX_ID_WORD) && !Matches(RX_ID_WORD, CHECK_ALL_ID, TX_ID_WORD)
  {
  }
}
