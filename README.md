# FlexCAN0 driver of DriverFLEXCAN, modelled in Dafny

This project models the FlexCAN0 driver in `src/CAN.c` of the DriverFLEXCAN
repository, an S32K144 example. The driver has four functions:
- `CAN0_SetBitTime`;
- `CAN0_init`, which brings the module up in freeze mode, clears its message-buffer RAM, programs the acceptance masks, arms message buffer 4 (MB4) for reception and leaves freeze mode;
- `CAN0_Transmitter`, which fills MB0 and activates it;
- `CAN0_Receiver`, which copies MB4 into the global `rx` and releases the buffer.

The peripheral is the class `CanDriver.FlexCan0`. Its fields:
- the registers `MCR`, `CTRL1`, `IFLAG1`, `RXMGMASK` and `TIMER`, as 32-bit words;
- `RAMn`, the 128-word message-buffer RAM (32 buffers of 4 words);
- `RXIMR`, the 16 individual masks;
- `rx`, the global receive snapshot;
- the ghost trace `log` of every store and every plain load, in program order.

The four functions are methods that change these fields statement by statement, in the driver's order. The three loops of the driver are `for` loops with invariants: the RAM clear, the mask fill and the data copy.

Every store and every plain load goes through one access method (`StoreMcr`, `StoreCtrl1`, `StoreIflag1`, `StoreRxMgMask`, `StoreRam`, `StoreRxImr`, `LoadMcr`, `PollMcr`, `PollRelease`, `LoadRam`, `LoadTimer`). Each access method performs the access and extends a ghost trace by one entry. The trace is passed from call to call in the order of the calls, so its order is the order of the accesses in the bodies. A read-modify-write such as `CTRL1 |= m` is one entry, the store of the new value; its load is not recorded. The clock-gate store to PCC is the entry `EnableClock`. `PollMcr` and `PollRelease` are the MCR loads of the waits: the value they load is the driver's last stored MCR with the status bits the module drives at that poll. Apart from these two and `StoreIflag1`, which have rows below, the access methods are plumbing: each is one assignment and one trace entry, and the rows of the phases that call them cite the source lines.

Each operation that changes state is specified twice. First, by the new register and RAM contents. Second, by the trace it produces, which is a function of the old state. `Init`, `Transmitter` and `Receiver` append their trace to `log`. The lemmas of `CanTrace` then state two kinds of fact about those traces:
- orderings the hardware requires, for example that the clock source is selected while the module is disabled and that nothing is configured before freeze is acknowledged;
- that replaying a trace's stores reproduces the registers and RAM the methods leave behind.

The replay (`ApplyWrites`) treats IFLAG1 stores as write-1-to-clear.

Module layout:
- `FlexCanRegs`: register words, the field masks and shifts of the S32K1xx reference manual, and the field extractors.
- `CanTypes`: the `clkSource_t` and `bitTime_t` enumerations.
- `CanTiming`: the clock-source and bit-timing updates of CTRL1, and the bit rate they give.
- `CanLayout`: the `#define`s and fixed words, plus RAM contents after init and after transmit.
- `CanFrames`: the receive snapshot and message-buffer encode/decode.
- `CanTrace`: the access traces, their ordering lemmas and replay.
- `CanFindings`: the two defects below, as written and corrected.
- `CanDriver`: the class.

`CAN0_init` is split into phase methods: `SelectClock`, `AwaitFreezeAck`, `ConfigureFrozen`, `ClearRam`, `CheckAllIds`, `ArmMb4` and `LeaveFreeze`. Each covers a run of consecutive source lines. Each takes the trace so far and returns it extended by the accesses it makes. `Init` threads one trace through them in call order and appends it to `log` once.

Notes on how the source was read:
- `DATA_LENGTH_MB` (src/CAN.c:148) is defined in none of the files. It is taken to be the words per buffer (4), so the receiver copies RAMn[18] and RAMn[19], which are MB4's data words (`CanLayout.DATA_LENGTH_MB`).
- The type `Rx_t` of the global `rx` (src/CAN.c:18) is defined in none of the files. Every field is modelled as a 32-bit word, and the data field as a sequence of two words.
- src/CAN.h:22-23 declares `CAN_Transmitter` and `CAN_Receiver`, and src/main.c calls them. src/CAN.c:113 and 135 define `CAN0_Transmitter` and `CAN0_Receiver` instead. The model follows the definitions in `CAN.c`.
- The receiver extracts the message-buffer CODE with mask 0x07000000 (src/CAN.c:142). That keeps bits 26-24 of the 4-bit field (`CsCodeLow`, `CsCodeLowBits`), so a CODE with bit 27 set is reported without it.
- The receiver's comment (src/CAN.c:135) names identifier 0x556. MB4 is armed for standard identifier 0x511 (src/CAN.c:98-99), and the transmitter sends 0x555. Under the masks `CAN0_init` programs, MB4 accepts 0x511 only, so it never accepts this node's own frames (`Mb4AcceptsOnlyItsIdentifier`).
- The comment at src/CAN.c:140 says MB4 is read if its flag is set. No test is made, and the model reads unconditionally, as the code does.
- The bit-rate argument of `CAN0_SetBitTime` selects nothing. The fixed timing gives 500 kbit/s from the 8 MHz oscillator, the configuration src/main.c:14 asks for, and no other requested rate is met (`ConfiguredRateMatchesRequest`).

## Model

| member | source | states |
|---|---|---|
| CanDriver.FlexCan0.PollMcr | src/CAN.c:73 | a poll of the freeze wait loads the driver's last stored MCR with FRZACK as the module drives it, and records that load |
| CanDriver.FlexCan0.PollRelease | src/CAN.c:105-108 | a poll of a release wait loads 0x1F with FRZACK and NOTRDY as the module drives them, and records that load |
| CanDriver.FlexCan0.StoreIflag1 | src/CAN.c:115-116 | a store into IFLAG1 clears exactly the bits written as 1, and records the value written |
| CanDriver.FlexCan0.SetBitTime | src/CAN.c:20-45 | CTRL1 becomes the old CTRL1 with the timing constant OR-ed in, whatever rate is requested; the trace grows by that one CTRL1 store |
| CanDriver.FlexCan0.Init | src/CAN.c:47-111 | MCR ends 0x1F; CTRL1 ends with the selected clock source and the timing bits; RXMGMASK is 0x1FFFFFFF; RAMn is zero except words 16 and 17; every RXIMR entry is 0xFFFFFFFF; the trace appended, built from the accesses in call order, is InitLog of the old MCR and CTRL1, so the ordering lemmas of CanTrace hold of the body |
| CanDriver.FlexCan0.SelectClock | src/CAN.c:55-70 | after the clock gate, MDIS is set, CLKSRC is selected and MDIS is cleared; the trace records these stores in body order with their values |
| CanDriver.FlexCan0.ChooseClockSource | src/CAN.c:61-66 | CTRL1 gets CLKSRC cleared for the oscillator and set for the peripheral clock, by one CTRL1 store that the trace records |
| CanDriver.FlexCan0.AwaitFreezeAck | src/CAN.c:73 | the wait polls MCR until FRZACK reads set and then stops; it makes exactly ackDelay + 1 reads, the last one the first to see FRZACK |
| CanDriver.FlexCan0.ConfigureFrozen | src/CAN.c:76-82 | the bit timing is written, then RFEN is cleared, then SRXDIS is cleared, in that order in the trace; no other MCR bit changes |
| CanDriver.FlexCan0.ClearRam | src/CAN.c:85-86 | all 128 RAMn words are zero, stored in index order |
| CanDriver.FlexCan0.CheckAllIds | src/CAN.c:89-90 | all 16 RXIMR entries are 0xFFFFFFFF, stored in index order |
| CanDriver.FlexCan0.ArmMb4 | src/CAN.c:93-99 | RXMGMASK is 0x1FFFFFFF; RAMn[16] and RAMn[17] hold MB4's control and identifier words; no other RAM word changes |
| CanDriver.FlexCan0.LeaveFreeze | src/CAN.c:102-108 | MCR is stored as 0x1F; each of the two waits reads MCR once and falls through |
| CanDriver.FlexCan0.Transmitter | src/CAN.c:113-133 | MB0's flag is cleared write-1-to-clear; RAMn becomes TransmitRam of the old RAMn; the trace appended is TransmitLog, which lists the stores in body order: the flag, data 0, data 1, identifier and control word |
| CanDriver.FlexCan0.Receiver | src/CAN.c:135-156 | rx becomes the as-written snapshot of RAMn; RAMn is untouched; MB4's flag is cleared write-1-to-clear; the trace appended is ReceiveLog, which lists the accesses in body order: the MB4 reads, the MB0 read, the TIMER read and the flag store |
| CanDriver.FlexCan0.ReadFields | src/CAN.c:142-144 | rx.code, rx.id and rx.length come from MB4's control word, identifier word and control word again, read in that order; no other rx field changes |
| CanDriver.FlexCan0.ReadTimeStampAndRelease | src/CAN.c:150-155 | rx.timeStamp comes from MB0's control word; then TIMER is read and MB4's flag is cleared write-1-to-clear, in that order in the trace |
| CanDriver.FlexCan0.CopyData | src/CAN.c:147-149 | rx.data holds RAMn[4*DATA_LENGTH_MB+2] and the word after it, read in order; no other rx field changes |
| FlexCanRegs.MasksMatchShifts | src/CAN.c:142-144 | each field mask the driver uses is its field's width of ones shifted by the matching shift |
| FlexCanRegs.W1CSemantics | src/CAN.c:115-116 | for write-1-to-clear IFLAG1, a bit written as 1 ends clear and a bit written as 0 keeps its value |
| FlexCanRegs.FrzAckBit | src/CAN.c:73 | the guard term of the freeze wait is at most 1, and non-zero exactly when FRZACK is set |
| FlexCanRegs.NotRdyBit | src/CAN.c:108 | with `&`, the not-ready term is at most 1, and non-zero exactly when NOTRDY is set |
| FlexCanRegs.CsCodeLow | src/CAN.c:142 | the code the receiver extracts is at most 7 |
| FlexCanRegs.CsCodeLowBits | src/CAN.c:142 | the extracted code is the CODE field with its top bit dropped |
| FlexCanRegs.CsCode | src/CAN.c:126-128 | the CODE field of a control word is at most 0xF |
| FlexCanRegs.IdField | src/CAN.c:143 | the extracted identifier lies within the 29-bit identifier field |
| FlexCanRegs.CsDlc | src/CAN.c:144 | the extracted length is at most 15 |
| FlexCanRegs.CsTimeStamp | src/CAN.c:150 | the extracted time stamp is at most 0xFFFF |
| FlexCanRegs.IdStd | src/CAN.c:98 | the standard identifier of an identifier word is at most 0x7FF |
| FlexCanRegs.PackCsCode | src/CAN.c:142 | the receiver's code extraction inverts packing: a control word with code bits 26-24, length and time stamp packed in gives the code back |
| FlexCanRegs.PackCsDlc | src/CAN.c:144 | the receiver's length extraction gives back the length packed into a control word |
| FlexCanRegs.PackCsTimeStamp | src/CAN.c:150 | the time-stamp extraction gives back the time stamp packed into a control word |
| FlexCanRegs.IdFieldOfField | src/CAN.c:143 | extracting the identifier of an in-range identifier gives it back |
| CanTypes.NominalRate | src/CAN.h:8-18 | every enumerator names a rate between 10 kbit/s and 1 Mbit/s, and only B500KHZ names 500 kbit/s |
| CanTiming.ClockSelect | src/CAN.c:61-66 | only CLKSRC changes; it ends clear for the oscillator and set for the peripheral clock |
| CanTiming.WithBitTiming | src/CAN.c:44 | every bit of 0x00DB0006 ends set and every other CTRL1 bit is kept |
| CanTiming.WithBitTimingNeverClears | src/CAN.c:44 | the timing store clears no CTRL1 bit |
| CanTiming.WithBitTimingIdempotent | src/CAN.c:44 | applying the timing store twice is the same as applying it once |
| CanTiming.WithBitTimingKeepsClockSource | src/CAN.c:44 | the timing store keeps the clock-source selection made before it |
| CanTiming.TimeQuanta | src/CAN.c:44 | a bit lasts between 4 and 25 time quanta |
| CanTiming.BitTimingFields | src/CAN.c:44 | the constant encodes prescaler 1, phase segments of 4 quanta, propagation 7 quanta and 16 quanta per bit, all inside CTRL1's timing fields |
| CanTiming.ConfiguredBitRate | src/CAN.c:44 | from a CTRL1 whose timing fields are clear, the timing store gives 500 kbit/s on the 8 MHz oscillator |
| CanTiming.ConfiguredRateMatchesRequest | src/CAN.c:20-45 | on the 8 MHz oscillator, from a CTRL1 whose timing fields are clear, the configured rate equals the requested one exactly when 500 kbit/s is requested |
| CanLayout.WordIndex | src/CAN.c:4-6 | word w of buffer mb lies inside RAMn, and buffer number and word are recovered by division and remainder |
| CanLayout.MbWords | src/CAN.c:4-6 | the four words of buffer mb are RAMn[4*mb .. 4*mb+3] |
| CanLayout.LayoutConsistent | src/CAN.c:4-13 | the RAM is exactly 32 buffers of 4 words; words 16-17 armed at init are MB4's first two words; the receiver's reads are MB4's words; the transmitter's are MB0's; the 16 masks cover existing buffers |
| CanLayout.TxRxBuffersDisjoint | src/CAN.c:119-148 | no RAM word of MB0 is a word of MB4 |
| CanLayout.IdWordsMatchComments | src/CAN.c:98-125 | the identifier words are 0x511 << 18 and 0x555 << 18, with no other identifier bit set |
| CanLayout.TxControlWordFields | src/CAN.c:126-132 | the transmit control word is 0x0C480000: CODE 0xC, SRR set, IDE and RTR clear, DLC 8, time stamp 0 |
| CanLayout.RxControlWordFields | src/CAN.c:95-96 | the arming word has CODE EMPTY (0x4), DLC 0 and a standard identifier |
| CanLayout.FlagWordsNameTheirBuffers | src/CAN.c:15 | CLEAN_MB0 is bit 0, MB0's flag; 0x10 is bit 4, MB4's flag |
| CanLayout.TransmitFlagClearKeepsMb4 | src/CAN.c:115-116 | the transmitter's flag store clears MB0's flag and keeps a pending MB4 flag |
| CanLayout.ReceiveFlagClearKeepsMb0 | src/CAN.c:154-155 | the receiver's flag store clears MB4's flag and keeps a pending MB0 flag |
| CanLayout.FlagClearsMb0First | src/CAN.c:154-155 | after both flag clears, MB0's first, exactly the MB0 and MB4 flags are cleared |
| CanLayout.FlagClearsMb4First | src/CAN.c:154-155 | after both flag clears, MB4's first, exactly the MB0 and MB4 flags are cleared |
| CanLayout.FlagClearsCommute | src/CAN.c:115-155 | the two flag clears give the same IFLAG1 in either order |
| CanLayout.InitRam | src/CAN.c:85-99 | after init, RAMn[16] is 0x04000000, RAMn[17] is 0x14440000 and every other word is 0 |
| CanLayout.InitRamBuffers | src/CAN.c:85-99 | after init, MB4 holds the arming word and identifier 0x511 with zero data, and every other buffer is all zero |
| CanLayout.TransmitRam | src/CAN.c:118-126 | after transmit, MB0 holds the control word, identifier 0x555 and the two data words, and RAMn[4..127] is unchanged |
| CanLayout.TransmitKeepsOtherBuffers | src/CAN.c:118-126 | every buffer other than MB0 is unchanged by the transmitter |
| CanFrames.ReceivedAsWritten | src/CAN.c:142-150 | the snapshot takes code, identifier, length and data from MB4 and the time stamp from MB0's word 0; every field is in range |
| CanFrames.DecodeMb | src/CAN.c:142-150 | a snapshot decoded from one buffer has every field in range |
| CanFrames.Received | src/CAN.c:142-150 | the snapshot with the time stamp taken from MB4 is the decoding of MB4 alone |
| CanFrames.EncodeMb | src/CAN.c:142-150 | the buffer the receiver would decode into a given snapshot keeps its identifier in word 1 and its data in words 2-3 (the inverse used by DecodeEncode) |
| CanFrames.DecodeEncode | src/CAN.c:142-150 | decoding the buffer built from an in-range snapshot gives the snapshot back |
| CanFrames.Mb4AcceptsOnlyItsIdentifier | src/CAN.c:88-99 | under both masks init programs, MB4 accepts a standard identifier exactly when it is 0x511, and never the transmitted 0x555 |
| CanTrace.WithFrzAckBits | src/CAN.c:73 | a poll sees the driver's MCR bits unchanged and FRZACK set exactly when the module has acknowledged freeze mode |
| CanTrace.PollSeesAck | src/CAN.c:73 | the freeze-wait guard sees FRZACK exactly when the module drives it |
| CanTrace.FreezeWaitReadsStep | src/CAN.c:73 | one more poll appends one more MCR read |
| CanTrace.InitLogAssembled | src/CAN.c:47-111 | the phases' traces, concatenated in call order, are the whole init trace |
| CanTrace.InitSelectsClockWhileDisabled | src/CAN.c:55-70 | the init trace starts with the clock gate; then MDIS is set; then a CTRL1 store changes only CLKSRC, clear exactly for the oscillator; then MDIS is cleared with no other MCR bit changed |
| CanTrace.InitWaitsForFreezeAck | src/CAN.c:73 | the freeze wait is a run of MCR reads; all but the last read FRZACK clear and the last reads it set |
| CanTrace.InitConfiguresOnlyWhenFrozen | src/CAN.c:73-99 | before freeze is acknowledged no RAMn, RXIMR or RXMGMASK store occurs and the only CTRL1 store is the clock selection; the first access after it is the timing store |
| CanTrace.InitEndsWithMcrStore | src/CAN.c:102-108 | init ends with MCR stored as exactly 0x1F, followed by reads only |
| CanTrace.TransmitOrder | src/CAN.c:115-126 | the transmitter first clears MB0's flag, then stores only MB0 words, and the activating control word last |
| CanTrace.ReceiveUnlockOrder | src/CAN.c:142-155 | the receiver's accesses are RAM reads, then the TIMER read, then the MB4 flag store last |
| CanTrace.InitReplaysRam | src/CAN.c:85-99 | replaying init's stores over any RAM contents gives the post-init RAM |
| CanTrace.InitReplaysMasks | src/CAN.c:89-90 | replaying init's stores over any masks sets all 16 RXIMR entries to 0xFFFFFFFF |
| CanTrace.InitReplaysMcr | src/CAN.c:102 | replaying init's stores leaves MCR at 0x1F |
| CanTrace.InitReplaysCtrl1 | src/CAN.c:61-76 | replaying init's stores leaves CTRL1 with the selected clock source and the timing bits |
| CanTrace.InitReplaysGlobalMask | src/CAN.c:93 | replaying init's stores leaves RXMGMASK at 0x1FFFFFFF |
| CanTrace.InitKeepsFlags | src/CAN.c:47-111 | init never stores into IFLAG1 |
| CanTrace.ClearReplaysZeros | src/CAN.c:85-86 | replaying the clear loop's stores over any RAM gives all zeros |
| CanTrace.ArmReplaysMb4 | src/CAN.c:96-99 | replaying the arming stores writes MB4's control word and then its identifier word |
| CanTrace.TransmitReplaysRam | src/CAN.c:118-126 | replaying the transmitter's stores over any RAM gives the post-transmit RAM |
| CanTrace.TransmitClearsMb0Flag | src/CAN.c:115-116 | replaying the transmitter's stores clears MB0's flag write-1-to-clear and nothing else in IFLAG1 |
| CanTrace.ReceiveKeepsRam | src/CAN.c:135-156 | replaying the receiver's accesses leaves RAMn as it was |
| CanTrace.ReceiveClearsMb4Flag | src/CAN.c:154-155 | replaying the receiver's accesses clears MB4's flag write-1-to-clear and nothing else in IFLAG1 |
| CanFindings.UnfreezeWaitGuardAsWritten | src/CAN.c:105 | the guard of the unfreeze wait, as written with `&&`, is 0 for every MCR value |
| CanFindings.ReadyWaitGuardAsWritten | src/CAN.c:108 | the guard of the ready wait, as written with `&&`, is 0 for every MCR value |
| CanFindings.ReleaseWaitsFallThrough | src/CAN.c:102-108 | with FRZACK and NOTRDY still set after MCR = 0x1F, the written guards stop the waits while the `&` guards keep waiting |
| CanFindings.ReleasedMcr | src/CAN.c:102-108 | after the store of 0x1F, a read shows the driver's 0x1F with FRZACK and NOTRDY as the module drives them, and the `&` guards see exactly those drives |
| CanFindings.UnfreezeReadsStep | src/CAN.c:105 | one more poll of the intended unfreeze wait appends one more MCR read |
| CanFindings.ReadyReadsStep | src/CAN.c:108 | one more poll of the intended ready wait appends one more MCR read |
| CanFindings.IntendedWaitsStopAtFirstClear | src/CAN.c:105-108 | with `&`, every read before the last of each wait still shows FRZACK (then NOTRDY) set, and the last shows it clear |
| CanDriver.FlexCan0.LeaveFreezeIntended | src/CAN.c:102-108 | with `&` in both guards, the waits poll MCR until FRZACK and then NOTRDY read clear, and end with the module out of freeze mode and ready; the reads are the unfreeze polls, then the ready polls |
| CanFindings.AsWrittenAgreesExceptTimeStamp | src/CAN.c:142-150 | the as-written snapshot differs from MB4's only in the time stamp, and equals it exactly when MB0 and MB4 carry the same time stamp |
| CanFindings.ReceivedDependsOnlyOnMb4 | src/CAN.c:142-150 | the corrected snapshot depends on MB4's words alone |
| CanFindings.TransmitKeepsReceived | src/CAN.c:113-150 | a transmit on MB0 does not change the corrected snapshot |
| CanFindings.TimeStampAsWrittenFollowsTransmit | src/CAN.c:126-150 | after a transmit, the as-written time stamp is 0; whenever MB4's time stamp is non-zero the as-written snapshot is wrong |

The trace functions of `CanTrace` define the driver's accesses without proving anything themselves: `InitSelectLog`, `FreezeWaitReads`, `InitTimingLog`, `RamClearWrites`, `MaskWrites`, `InitArmLog`, `InitReleaseLog`, `InitLog`, `TransmitLog`, `FieldReads`, `DataReads`, `UnlockAccesses` and `ReceiveLog`. The same holds for the replay functions `Apply1`, `ApplyWrites` and `Replayed`. The lemmas above are what is proved about them.

## Left out

- src/GPIO.c, src/GPIO.h, src/main.c and src/LPSPI.h. These files are pin multiplexing, the watchdog, clock bring-up, transceiver set-up over SPI and the endless polling loop. They are hardware glue around the driver, with no state of their own to model. The `PORT_init` and `delay` prototypes at src/GPIO.h:38,48 take parameters that the definitions at src/GPIO.c:17,30 do not.
- The clock-gate store to PCC (src/CAN.c:55) is recorded as the trace event `EnableClock`. The PCC register is not modelled.
- The unlock effect of the TIMER read (src/CAN.c:153) is not modelled. TIMER is a field that the receiver reads into the trace.
- The hardware's own updates are not modelled, except FRZACK during the freeze wait and FRZACK and NOTRDY during the intended release waits of `LeaveFreezeIntended`. This leaves out the other status bits, message arrival, transmission completion and the time stamps written by the module. RAMn and IFLAG1 change only by the driver's stores.
- CanDriver.FlexCan0.AwaitFreezeAck: the parameter `ackDelay` is the number of polls after which the module acknowledges freeze. The wait therefore ends by assumption, and a module that never acknowledges is not modelled.
- CanDriver.FlexCan0.LeaveFreeze: each release wait is modelled as its single MCR read, because its guard is 0 for every MCR value. MCR reads back as 0x1F, because the module's FRZACK and NOTRDY updates after leaving freeze are not modelled.
- CanDriver.FlexCan0.LeaveFreezeIntended: `unfreezeDelay` and `readyDelay` are the numbers of polls after which the module clears FRZACK and NOTRDY. The waits therefore end by assumption, and a module that never leaves freeze mode is not modelled. It is not called by `Init`, which follows the code as written.
- FlexCanRegs.PackCs and CanFrames.EncodeMb describe a buffer as the receiver decodes it: code bits 26-24, length, time stamp, identifier and data. They cannot hold CODE bit 27 or the SRR, IDE and RTR bits, so the transmitter's control word (src/CAN.c:126) is not one of their values. `CanLayout.TxControlWordFields` states that word's fields instead. How the module fills MB4 when a frame arrives is not modelled.
- The S32K144 device-header macros are named constants with the values of the S32K1xx reference manual's FlexCAN chapter. The header is not part of this model.
- Bus behaviour is not modelled: bit timing on the wire, arbitration, self-reception loopback, acceptance filtering by the module (`Matches` states only the mask rule) and CAN FD.
- The `default:` branch of the switch in `CAN0_SetBitTime` (src/CAN.c:40-41) cannot be reached with a `bitTime_t` enumerator and has no case in the model. The unused local `words` (src/CAN.c:52) is not modelled.
- CanTiming.ConfiguredRateMatchesRequest: stated for the 8 MHz oscillator only. With the peripheral clock (src/CAN.c:61-66) the same timing gives a rate that depends on that clock's frequency, which is not part of this model.
- CanFrames.ReceivedAsWritten: `Rx_t` is undefined, so any narrowing of a field by its real type is not modelled. Every field keeps the full 32-bit extracted value.

## Findings

| source | as written | input that shows it | evidently intended | confidence | as-written member | corrected member |
|---|---|---|---|---|---|---|
| src/CAN.c:105-108 | `(MCR && MASK) >> SHIFT`: the logical `&&` gives 0 or 1, which the shift of 24 or 27 turns into 0, so neither wait ever waits | MCR = 0x0900001F right after `MCR = 0x1F`, with FRZACK and NOTRDY still set: both guards are 0, so init returns while the module is still frozen and not ready | the bitwise `&`, as at src/CAN.c:73: wait while FRZACK, then NOTRDY, reads set | high; not executed | CanFindings.UnfreezeWaitGuardAsWritten, CanFindings.ReadyWaitGuardAsWritten, CanFindings.ReleaseWaitsFallThrough | FlexCanRegs.FrzAckBit, FlexCanRegs.NotRdyBit, CanDriver.FlexCan0.LeaveFreezeIntended, CanFindings.IntendedWaitsStopAtFirstClear |
| src/CAN.c:150 | `rx.RxTimeStamp = RAMn[0*WORDS_PER_MB + 0] & 0xFFFF` reads MB0's control word, not that of MB4, the buffer every other field comes from | after `CAN0_Transmitter` MB0's control word is 0x0C480000, whose time stamp is 0; a frame in MB4 with time stamp 0x1234 is reported with time stamp 0 | `RAMn[4*WORDS_PER_MB + 0] & 0xFFFF`, MB4's own time stamp | high; not executed | CanFrames.ReceivedAsWritten, CanFindings.TimeStampAsWrittenFollowsTransmit | CanFrames.Received, CanFrames.DecodeEncode, CanFindings.TransmitKeepsReceived |
