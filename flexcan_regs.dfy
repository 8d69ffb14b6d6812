/** Register words of the S32K144 FlexCAN module and the bit fields the
    driver touches. The mask and shift values are those of the FlexCAN
    chapter of the S32K1xx reference manual (register MCR, register CTRL1
    and the message-buffer control/status and identifier words); the
    device header that defines them is not part of this model. */
module FlexCanRegs {

  /** One 32-bit memory-mapped register or RAM word. */
  type Word = bv32

  // MCR (module configuration register)
  const MCR_MDIS_MASK: Word := 0x8000_0000     // module disable, bit 31
  const MCR_RFEN_MASK: Word := 0x2000_0000     // legacy RX FIFO enable, bit 29
  const MCR_NOTRDY_MASK: Word := 0x0800_0000   // not ready (status), bit 27
  const MCR_NOTRDY_SHIFT: bv5 := 27
  const MCR_FRZACK_MASK: Word := 0x0100_0000   // freeze acknowledge (status), bit 24
  const MCR_FRZACK_SHIFT: bv5 := 24
  const MCR_SRXDIS_MASK: Word := 0x0002_0000   // self reception disable, bit 17

  // CTRL1 (control 1 register)
  const CTRL1_CLKSRC_MASK: Word := 0x0000_2000 // protocol engine clock source, bit 13

  // Message buffer word 0: control and status
  const CS_CODE_MASK: Word := 0x0F00_0000      // CODE, bits 27-24
  const CS_CODE_SHIFT: bv5 := 24
  const CS_SRR_MASK: Word := 0x0040_0000       // substitute remote request, bit 22
  const CS_IDE_MASK: Word := 0x0020_0000       // extended identifier, bit 21
  const CS_RTR_MASK: Word := 0x0010_0000       // remote transmission request, bit 20
  const CS_DLC_MASK: Word := 0x000F_0000       // data length code, bits 19-16
  const CS_DLC_SHIFT: bv5 := 16
  const CS_TIME_STAMP_MASK: Word := 0x0000_FFFF // free-running timer capture, bits 15-0

  // Message buffer word 1: identifier
  const ID_ID_MASK: Word := 0x1FFF_FFFF        // whole 29-bit identifier field
  const ID_ID_SHIFT: bv5 := 0
  const ID_STD_MASK: Word := 0x1FFC_0000       // standard 11-bit identifier, bits 28-18
  const ID_STD_SHIFT: bv5 := 18

  /** Message-buffer CODE values for a receive buffer armed and waiting. */
  const CODE_RX_EMPTY: Word := 0x4
  /** Message-buffer CODE value that asks the module to transmit the buffer. */
  const CODE_TX_DATA: Word := 0xC

  /** Each field mask is the field's width of ones moved up by its shift. */
  lemma MasksMatchShifts()
    ensures MCR_FRZACK_MASK == 1 << MCR_FRZACK_SHIFT && MCR_NOTRDY_MASK == 1 << MCR_NOTRDY_SHIFT
    ensures CS_CODE_MASK == 0xF << CS_CODE_SHIFT && CS_DLC_MASK == 0xF << CS_DLC_SHIFT
    ensures ID_ID_MASK == 0x1FFF_FFFF << ID_ID_SHIFT && ID_STD_MASK == 0x7FF << ID_STD_SHIFT
  {
  }

  /** `w | mask`: the bits of `mask` set, as a `|=` leaves a register. */
  function SetBits(w: Word, mask: Word): Word { w | mask }

  /** `w & ~mask`: the bits of `mask` cleared, as a `&= ~` leaves a register. */
  function ClearBits(w: Word, mask: Word): Word { w & !mask }

  /** The value of a write-1-to-clear register (IFLAG1) after `written` is
      stored into it. */
  function W1C(flags: Word, written: Word): Word
  {
    ClearBits(flags, written)
  }

  /** A bit written to a write-1-to-clear register as 1 is cleared, a bit
      written as 0 keeps its value. */
  lemma W1CSemantics(flags: Word, written: Word)
    ensures W1C(flags, written) & written == 0
    ensures W1C(flags, written) & !written == flags & !written
  {
  }

  /** C's logical `&&` on two register values: 1 when both are non-zero, else 0. */
  function LogicalAnd(a: Word, b: Word): Word
  {
    if a != 0 && b != 0 then 1 else 0
  }

  /** `(MCR & FRZACK_MASK) >> FRZACK_SHIFT`, the freeze-acknowledge bit of
      MCR moved to bit 0: non-zero exactly when FRZACK is set. */
  function FrzAckBit(mcr: Word): (r: Word)
    ensures r <= 1
    ensures r != 0 <==> mcr & MCR_FRZACK_MASK != 0
  {
    (mcr & MCR_FRZACK_MASK) >> MCR_FRZACK_SHIFT
  }

  /** `(MCR & NOTRDY_MASK) >> NOTRDY_SHIFT`, the not-ready bit of MCR moved
      to bit 0: non-zero exactly when NOTRDY is set. */
  function NotRdyBit(mcr: Word): (r: Word)
    ensures r <= 1
    ensures r != 0 <==> mcr & MCR_NOTRDY_MASK != 0
  {
    (mcr & MCR_NOTRDY_MASK) >> MCR_NOTRDY_SHIFT
  }

  /** The CODE field of a control/status word. */
  function CsCode(cs: Word): (r: Word)
    ensures r <= 0xF
  {
    (cs & CS_CODE_MASK) >> CS_CODE_SHIFT
  }

  /** Bits 26-24 of a control/status word, the part of CODE the receiver
      extracts with mask 0x07000000 and shift 24. */
  function CsCodeLow(cs: Word): (r: Word)
    ensures r <= 0x7
  {
    (cs & 0x0700_0000) >> 24
  }

  /** CsCodeLow keeps the three low bits of CODE. */
  lemma CsCodeLowBits(cs: Word)
    ensures CsCodeLow(cs) == CsCode(cs) & 0x7
  {
  }

  /** The 29-bit identifier field of an identifier word. */
  function IdField(id: Word): (r: Word)
    ensures r <= ID_ID_MASK
  {
    (id & ID_ID_MASK) >> ID_ID_SHIFT
  }

  /** A control/status word holding code bits `code`, length `dlc` and time
      stamp `ts` in their fields, every other bit clear. */
  function PackCs(code: Word, dlc: Word, ts: Word): Word
  {
    (code << CS_CODE_SHIFT) | (dlc << CS_DLC_SHIFT) | ts
  }

  lemma PackCsCode(code: Word, dlc: Word, ts: Word)
    requires code <= 0x7 && dlc <= 0xF && ts <= 0xFFFF
    ensures CsCodeLow(PackCs(code, dlc, ts)) == code
  {
  }

  lemma PackCsDlc(code: Word, dlc: Word, ts: Word)
    requires code <= 0x7 && dlc <= 0xF && ts <= 0xFFFF
    ensures CsDlc(PackCs(code, dlc, ts)) == dlc
  {
  }

  lemma PackCsTimeStamp(code: Word, dlc: Word, ts: Word)
    requires code <= 0x7 && dlc <= 0xF && ts <= 0xFFFF
    ensures CsTimeStamp(PackCs(code, dlc, ts)) == ts
  {
  }

  lemma IdFieldOfField(id: Word)
    requires id <= ID_ID_MASK
    ensures IdField(id) == id
  {
  }

  /** The DLC (data length code) field of a control/status word. */
  function CsDlc(cs: Word): (r: Word)
    ensures r <= 0xF
  {
    (cs & CS_DLC_MASK) >> CS_DLC_SHIFT
  }

  /** The TIME STAMP field of a control/status word. */
  function CsTimeStamp(cs: Word): (r: Word)
    ensures r <= 0xFFFF
  {
    cs & CS_TIME_STAMP_MASK
  }

  /** The standard (11-bit) identifier held in an identifier word
      (bits 28-18, the bits of ID_STD_MASK). */
  function IdStd(id: Word): (r: Word)
    ensures r <= 0x7FF
  {
    (id >> ID_STD_SHIFT) & 0x7FF
  }
}
