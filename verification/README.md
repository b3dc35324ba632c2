# RF430FRL152H sensor-tag firmware: a Dafny model

This project models the application firmware of an RF430FRL152H battery-less
sensor tag, found in `main.c`. The tag answers ISO 15693 readers through the
ROM radio stack. Next to that it samples a thermistor bridge with the SD14
delta-sigma ADC: first a conversion of the reference resistor, then one of the
thermistor. The processor sleeps while each conversion runs.

The model covers four pieces of logic:

- **Sampling state machine** (`sampling.dfy`, module `Sampling`).
  - The `SD14_ADC` interrupt handler and `SetupSD14`.
  - Each handler invocation is one atomic step, `Step(m, ev)`, on an
    immutable machine. The machine holds `State`, `SamplesBuffer[4]`, the
    converter flags and the wake-on-exit request.
  - `Handler` gives the ordered log of writes the invocation makes, so ordering
    ("clear the flag first", "enable before start") is stated on the log.
  - `Step` applies the log.
- **Foreground loop** (`scheduler.dfy`, module `Scheduler`).
  - The `while(1)` body of `main`: arm the reference phase, sleep, then sleep
    again.
  - Runs of handler invocations over event sequences, with a complete
    sampling cycle proved end to end.
  - The loop itself is modelled as written: a wake in the second sleep would
    go round and re-arm. It is proved that no wake ever arrives there, so
    the body runs once.
- **Radio link** (`radio.dfy`, `link.dfy`, `timer_tx.dfy`).
  - The RF13MCTL and RF13MINT words and the transmit FIFO, as an ordered log
    of register operations folded register by register.
  - `initISO15693` configures the radio and can reset the ISO 15693 lock
    blocks with `memset` in a 64 KiB memory image.
  - `TimerA0_ISR` masks RF13MCTL with 0x00FE (its comment calls bit 0
    downlink reception), loads the demo key into the FIFO and enables
    transmission.
- **Fixed NVM layouts** (`nvm_layout.dfy`, module `NvmLayout`).
  - The Firmware System Control Byte, with a decoder into its documented bit
    table and an encoder back.
  - The NDEF block `NFC_NDEF_Message`: a capability container, an NDEF
    message TLV holding one short URI record, and a terminator TLV. It has a
    decoder and an encoder in the layout of the NFC Forum NDEF specification
    (section 3.2) and the NFC Forum URI Record Type Definition (section
    3.2.2, the prefix table).
- `bytes.dfy` holds the shared `byte` type.

Source quirks the model keeps:

- **The foreground loop body runs once.** The `while(1)` at `main.c:209` and
  the comment at `main.c:213-214` suggest a repeating sampling cycle. But
  only `main.c:264` requests a wake, in the thermistor phase, and the first
  sleep at `main.c:213` consumes that wake. Nothing in `main.c` wakes the
  second sleep at `main.c:218`. `Scheduler.SecondSleepIsFinal` and
  `Scheduler.OneCycleThenSleep` prove that one cycle runs and the board then
  stays asleep.
- **The control byte is 0x42**, not the 0x7F of the comment at `main.c:108`.
- **The demo key.** `GENERATED_DEMO_KEY` at `main.c:54` is not a valid C
  declaration as written. The model takes it as the four 16-bit words
  `{0xFF00, 0xFF00, 0x0000, 0xFFFF}` it evidently stands for.
- **The downlink mask** `0b11111110` at `main.c:419` is applied to a 16-bit
  word. It therefore clears bit 0 and also the whole high byte, and the model
  keeps that (`TimerTx.MaskEffect`, `TimerTx.TimerA0Ctl`).
- **`NFC_NDEF_Message[21]` has 20 initialisers.** Byte 20 is 0 by aggregate
  initialisation (`NvmLayout.AggregateInit`).

## Model

| member | source | states |
|---|---|---|
| Sampling.SetupSD14Arms | main.c:226-237 | the four writes leave the converter on `channel`, enabled, started and with no flag pending, change nothing else, and put the channel write and the control reset before the enable and the enable before the start |
| Sampling.NonSamplingEvents | main.c:243-252 | no interrupt, an overflow, or a result while `State` is neither 2 nor 3 leaves `State` and the buffer unchanged and requests no wake; an overflow clears only the overflow flag and a result only the data-ready flag |
| Sampling.ReferenceResult | main.c:250-257 | a result in state 2 stores the code in slot 0, moves `State` to 3, re-arms the converter on channel 2 in the same invocation and requests no wake |
| Sampling.ReferenceResultOrder | main.c:250-256 | in state 2 the data-ready flag is cleared first, the code is stored before the converter is reconfigured, and enable precedes start |
| Sampling.ThermistorResult | main.c:250-266 | a result in state 3 clears the data-ready flag first, stores the code in slot 1, disables the converter, sets `State` to 1 and requests wake-on-exit after the store and the disable |
| Sampling.StepFollowsCycle | main.c:240-269 | every invocation keeps `State` or advances it one phase (2 to 3, 3 to 1), requests a wake exactly for a result in state 3, and never writes slots 2-3 |
| Scheduler.ArmStartsReferencePhase | main.c:211-212 | arming sets `State` to 2 and starts the converter on channel 3, leaving the buffer alone |
| Scheduler.QuietRun | main.c:243-249 | any run of empty and overflow interrupts keeps `State` and the buffer and never wakes |
| Scheduler.IdleRun | main.c:250-267 | outside states 2 and 3 any run of interrupts, results included, keeps `State`, the buffer and the converter enable, and never wakes |
| Scheduler.ReferencePhase | main.c:250-257 | interrupts up to the reference result leave `State` 3, the code in slot 0, no wake, and `State` within {1,2,3} throughout |
| Scheduler.ThermistorPhase | main.c:258-266 | interrupts up to the thermistor result leave `State` 1, the code in slot 1, the converter off, exactly one wake (at the result), and `State` within {1,2,3} throughout |
| Scheduler.FullCycle | main.c:209-220 | from the arming, any empty/overflow interrupts around results r0 and r1 and any events after them give buffer [r0, r1, old slot 2, old slot 3], `State` 1, converter off, exactly one wake, and `State` within {1,2,3} throughout |
| Scheduler.NoWakeNoProgress | main.c:213 | while no invocation requests a wake, the foreground stays in the sleep it is in |
| Scheduler.SecondSleepIsFinal | main.c:218 | parked in the second sleep with `State` idle, the foreground never leaves it whatever interrupts follow, and the buffer is kept |
| Scheduler.OneCycleThenSleep | main.c:203-220 | from power-up, one reference and one thermistor result bring the foreground to the second sleep with both codes stored, and it stays there |
| Radio.OrOnlyCtl | main.c:333-338 | a log of OR writes leaves RF13MCTL equal to its old bits united with the ORed ones |
| Radio.IrqAfterOrs | main.c:341-343 | RF13MINT ends up as its old bits united with every bit ORed into it |
| Radio.PushOnlyCount | main.c:422-426 | a log of FIFO writes pushes exactly one byte per write |
| Radio.PushOnlyCtl | main.c:422-426 | FIFO writes leave RF13MCTL unchanged |
| Link.Memset | main.c:348 | the byte loop of `memset` produces exactly the filled memory: `v` in `[addr, addr+n)`, every other byte unchanged |
| Link.ConfigOpsCtl | main.c:333-338 | the six RF13MCTL writes OR in exactly BE, RXEN, TXEN, RFTOEN, MCFG and 0x0040 + DR + SC |
| Link.ConfigOpsIrq | main.c:341-343 | the three RF13MINT writes OR in exactly RXIE, RFTOIE and TXIE |
| Link.ConfigOpsShape | main.c:333-343 | the configuration writes are all OR writes and push nothing into the FIFO |
| Link.ConfigCtlAfter | main.c:333-338 | after the six writes RF13MCTL holds its old bits united with exactly the six ORed words |
| Link.ConfigIrqAfter | main.c:341-343 | after the three writes RF13MINT holds its old bits united with exactly RXIE, RFTOIE and TXIE |
| Link.ConfigSetsFlags | main.c:325-343 | the bring-up leaves RF13MCTL and RF13MINT as their old bits plus the requested flags, and the FIFO untouched |
| Link.BootstrapMemory | main.c:345-349 | with BIT3 in the parameters the 38 bytes from 0xF840 become 0xFF and every other byte is kept; without it no byte changes |
| Link.BootstrapIdempotent | main.c:325-350 | calling `initISO15693` a second time with the same parameters changes nothing |
| Link.StartupBootstrap | main.c:203 | the start-up call unlocks every lock block and keeps the control byte at 0xF867 and the 21-byte NDEF area at 0xF868, so an image holding `NFC_NDEF_Message` there still holds it |
| TimerTx.WordOfBytes | main.c:423-424 | the high byte and the low byte written to the FIFO recompose the key word |
| TimerTx.BytesOfWord | main.c:423-424 | a word built from two bytes splits back into the same two bytes |
| TimerTx.KeyPushesShape | main.c:422-426 | loading a key makes two FIFO writes per word and nothing else |
| TimerTx.KeyPushesBytes | main.c:422-426 | the FIFO receives the big-endian serialisation of the key: high byte then low byte of each word, in array order |
| TimerTx.KeyBytesRoundTrip | main.c:422-426 | reading the pushed bytes two at a time gives the key back |
| TimerTx.KeyLoopByCount | main.c:422-426 | the loop bounded by the element count pushes the whole key |
| TimerTx.KeyLoopOverruns | main.c:422 | a loop bound beyond the element count reads past the array, first at index `|key|` |
| TimerTx.SizeofBoundOverruns | main.c:422 | `sizeof` of the 4-word key is 8, and the loop bounded by it reads element 4 |
| TimerTx.AsWrittenReadsPastEnd | main.c:416-430 | the handler as written reads past the key before completing |
| TimerTx.CorrectedLoopMatches | main.c:422-426 | the loop bounded by the element count completes, and its writes are exactly the corrected handler's writes between the mask and the transmit enable |
| TimerTx.DemoKeyBytes | main.c:54 | the demo key serialises to FF 00 FF 00 00 00 FF FF |
| TimerTx.TimerA0Order | main.c:419-428 | the handler makes ten writes: the mask first, then only FIFO pushes, and the transmit enable last |
| TimerTx.MaskEffect | main.c:419 | the mask clears bit 0 and bits 8-15 and keeps bits 1-7 |
| TimerTx.DownlinkOffWhileLoading | main.c:419-426 | from the mask write through the last push, bit 0 and the high byte of RF13MCTL are clear and bits 1-7 are as they were |
| TimerTx.ReceiveEnableWhileLoading | main.c:418-426 | from the mask write through the last push, the RXEN bits of RF13MCTL are their old value masked by 0x00FE; if RXEN is bit 0, as the comment on the mask says, reception is off throughout |
| TimerTx.TimerA0Ctl | main.c:419-428 | after the handler RF13MCTL holds its old bits 1-7 plus the transmit enable |
| TimerTx.TimerA0Irq | main.c:416-430 | the handler leaves RF13MINT unchanged |
| TimerTx.TimerA0Pushed | main.c:422-426 | the handler's writes push exactly the big-endian serialisation of the demo key |
| TimerTx.TimerA0Fifo | main.c:422-426 | the handler appends FF 00 FF 00 00 00 FF FF to the FIFO, which reads back as the demo key |
| NvmLayout.ControlEncodeDecode | main.c:88-95 | every control byte is the encoding of its decoding under the bit table |
| NvmLayout.ControlDecodeEncode | main.c:88-95 | every meaning with reserved bits below 8 decodes back from its encoding |
| NvmLayout.ControlByteMeaning | main.c:105-108 | the byte is 0x42: 4-byte blocks, page 0, eUSCI off, NFC bridge disabled, sensor support off; 0x7F would mean something else |
| NvmLayout.AggregateInit | main.c:136 | an `n`-element array with fewer initialisers keeps them as its prefix and is zero after them |
| NvmLayout.HeaderEncodeDecode | main.c:148 | every record header byte is the encoding of its decoded flags |
| NvmLayout.HeaderDecodeEncode | main.c:148 | every flag set with TNF below 8 decodes back from its encoding |
| NvmLayout.RecordHeaderByte | main.c:148 | 0xD1 encodes a first-and-last, unchunked, short, ID-less, well-known record |
| NvmLayout.RecordHeaderUnique | main.c:148 | 0xD1 is the only byte with that meaning |
| NvmLayout.UriRecordRoundTrip | main.c:148-164 | every URI record that fits a short record decodes back from its bytes |
| NvmLayout.UriRecordDecodeEncode | main.c:148-164 | every record the decoder accepts is exactly the layout of what it returns |
| NvmLayout.TagRoundTrip | main.c:136-168 | every tag whose URI fits the 21-byte area decodes back from its layout |
| NvmLayout.TagDecodeEncode | main.c:136-168 | the decoder reads exactly the bytes the encoder writes, and an accepted image is at least as long as that layout |
| NvmLayout.UriOf | main.c:154 | a URI is produced exactly for the defined identifier codes; it starts with the prefix the code names and continues with the field bytes, one character per byte |
| NvmLayout.NdefMessageLayout | main.c:136-168 | magic 0xE1; TLV 0x03 of length 11 covering bytes 6-16; header 0xD1 with type length 1, type 'U' and payload length 7 matching bytes 10-16; terminator 0xFE at byte 17; zeros in bytes 18-20 |
| NvmLayout.NdefMessageIsTiUri | main.c:136-168 | the constant is exactly the layout of the tag for "http://www.ti.com" and decodes to it |
| NvmLayout.TiUriText | main.c:154-164 | identifier 0x01 with field "ti.com" reads as "http://www.ti.com" |

## Left out

- Start-up plumbing is not modelled: stopping the watchdog, the ROM calls made with inline assembly, and the reserved ROM variables (`main.c:113-130`, `main.c:193-200`). These are foreign code and address pinning.
- `DeviceInit` is not modelled (`main.c:288-311`). It is one-shot clock and pin register setup with no logic.
- `TimerInit` is empty (`main.c:368-373`). Timer A0 is therefore treated as an external trigger, and `TimerTx.TimerA0` is one run of its handler.
- Interleaving of `TimerA0_ISR` with the sampling interrupts is not modelled. The handler touches only radio registers, never the sampling machine, and it requests no wake, so it cannot affect the foreground.
- `RF13M_ISR` and the ISO 15693 protocol engine live in ROM (`main.c:394-403`). They are not part of this model.
- Register bit encodings come from the device header, which is not part of this model. This covers the `SD14*` and `RF13M*` symbols and the `SD14IV` values.
  - The converter is reduced to named flags.
  - The radio flags are a `Layout` parameter, so every radio theorem holds for any bit values.
  - The only literal encodings modelled are the mask 0x00FE, `BIT3` = 0x0008, the inventory literal 0x0040 and the control-byte bits.
- The SD14CTL1 write adds the channel number to the other configuration bits. The model keeps the channel as a separate field and does not model how the two overlap in the register.
- Low-power modes are reduced to a per-invocation `wakeRequested` flag.
  - Clocks, and the difference between LPM3 entry and the LPM4 bits cleared on exit, are not modelled.
  - The bits cleared on exit include the LPM3 bits, so the wake is effective.
- Processing of the samples after wake is left out. The source has only a comment there (`main.c:215`).
- The commented-out interrupt vectors (`main.c:375-393`, `main.c:405-414`, `main.c:432-441`) are left out.
- The static initial value 0 of `State` is covered by `Sampling.NonSamplingEvents`, which holds in every state other than 2 and 3.
- NvmLayout.DecodeTag: accepts only the shape `main.c:136-168` uses. That is one short, well-known URI record, a one-byte TLV length and no further TLVs. Other NDEF shapes are rejected with an error rather than parsed.
- NvmLayout.UriOf: reads the URI field one byte per character. The URI Record Type Definition encodes the field in UTF-8, so the result is that URI only when every field byte is ASCII (below 0x80), as in `main.c:154-164`. UTF-8 decoding is not modelled.
- TimerTx.ReceiveEnableWhileLoading: the device header that gives RF13MRXEN its bit is not part of this model. That bit 0 is the receive enable rests only on the comment at `main.c:418`, so "reception is off while the FIFO is loaded" is proved only under that assumption. Without it the lemma shows only that RXEN keeps whatever part of it lies in bits 1-7.
- NvmLayout.EncodeTag: requires a URI field of at most 9 bytes, the most that fits the 21-byte area.

## Findings

| source | as written | input that shows it | evidently intended | confidence | as-written member | corrected member |
|---|---|---|---|---|---|---|
| main.c:422 | `z < sizeof(GENERATED_DEMO_KEY)` bounds the loop by the size in bytes, 8, of a 4-word array | the demo key itself: at `z = 4` the loop reads `GENERATED_DEMO_KEY[4]`, past the end | bound by the element count, `sizeof(GENERATED_DEMO_KEY) / sizeof(GENERATED_DEMO_KEY[0])`: four iterations pushing eight bytes | medium, not executed; it assumes the macro at main.c:54 is repaired into a 4-element `u16_t` array | TimerTx.AsWrittenReadsPastEnd | TimerTx.CorrectedLoopMatches |
