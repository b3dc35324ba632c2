/** The Timer A0 compare interrupt: it masks RF13MCTL with 0x00FE (bit 0 is
    the bit its comment calls downlink reception), loads the demo key into
    the transmit FIFO word by word (high byte first) and then turns
    transmission on. */
module TimerTx {
  import opened Bytes
  import opened Radio

  /** The 16-bit AND mask written as `0b11111110`: it keeps bits 1-7 and
      clears bit 0 together with the whole high byte. */
  const DOWNLINK_MASK: bv16 := 0x00FE

  /** An unsigned 16-bit key word. */
  type u16 = x: int | 0 <= x < 0x10000

  /** The four words of GENERATED_DEMO_KEY. */
  const DemoKey: seq<u16> := [0xFF00, 0xFF00, 0x0000, 0xFFFF]

  /** `w >> 8` stored into the 8-bit RF13MTXF_H. */
  function HighByte(w: u16): byte {
    w / 256
  }

  /** `w` stored into the 8-bit RF13MTXF_L, which keeps the low byte. */
  function LowByte(w: u16): byte {
    w % 256
  }

  /** The word a receiver rebuilds from a high byte and a low byte. */
  function Word(hi: byte, lo: byte): u16 {
    hi * 256 + lo
  }

  /** Splitting a word into its two bytes loses nothing. */
  lemma WordOfBytes(w: u16)
    ensures Word(HighByte(w), LowByte(w)) == w
  {
  }

  /** Two bytes are recovered from the word they make. */
  lemma BytesOfWord(hi: byte, lo: byte)
    ensures HighByte(Word(hi, lo)) == hi && LowByte(Word(hi, lo)) == lo
  {
  }

  /** The two FIFO writes made for one key word, high byte first. */
  function WordPushes(w: u16): seq<Op> {
    [WriteTxHigh(HighByte(w)), WriteTxLow(LowByte(w))]
  }

  /** The FIFO writes made for a whole key, in array order. */
  function KeyPushes(key: seq<u16>): seq<Op>
    decreases |key|
  {
    if key == [] then [] else WordPushes(key[0]) + KeyPushes(key[1..])
  }

  /** Big-endian serialisation of a key: byte 2i is the high byte of word
      i and byte 2i + 1 its low byte. */
  function KeyBytes(key: seq<u16>): (bytes: seq<byte>)
    ensures |bytes| == 2 * |key|
  {
    seq(2 * |key|, i requires 0 <= i < 2 * |key| =>
      if i % 2 == 0 then HighByte(key[i / 2]) else LowByte(key[i / 2]))
  }

  /** The key a receiver rebuilds from the bytes, two at a time. */
  function Words(bytes: seq<byte>): (key: seq<u16>)
    requires |bytes| % 2 == 0
    ensures |key| == |bytes| / 2
    decreases |bytes|
  {
    if bytes == [] then [] else [Word(bytes[0], bytes[1])] + Words(bytes[2..])
  }

  /** Loading a key makes two writes per word, all of them FIFO pushes. */
  lemma {:induction false} KeyPushesShape(key: seq<u16>)
    ensures |KeyPushes(key)| == 2 * |key|
    ensures PushOnly(KeyPushes(key))
    decreases |key|
  {
    if key != [] {
      KeyPushesShape(key[1..]);
      var ops := KeyPushes(key);
      assert ops == WordPushes(key[0]) + KeyPushes(key[1..]);
      forall i | 0 <= i < |ops| ensures ops[i].IsPush() {
        if i >= 2 {
          assert ops[i] == KeyPushes(key[1..])[i - 2];
        }
      }
    }
  }

  /** The FIFO receives exactly the big-endian serialisation of the key. */
  lemma {:induction false} KeyPushesBytes(key: seq<u16>)
    ensures Pushed(KeyPushes(key)) == KeyBytes(key)
    decreases |key|
  {
    if key != [] {
      KeyPushesBytes(key[1..]);
      PushedConcat(WordPushes(key[0]), KeyPushes(key[1..]));
      var w := WordPushes(key[0]);
      assert w[1..][1..] == [];
      assert Pushed(w) == [HighByte(key[0]), LowByte(key[0])];
      var got := Pushed(KeyPushes(key));
      var want := KeyBytes(key);
      assert |got| == |want|;
      forall i | 0 <= i < |want| ensures got[i] == want[i] {
        if i >= 2 {
          assert got[i] == KeyBytes(key[1..])[i - 2];
          assert key[1..][(i - 2) / 2] == key[i / 2];
        }
      }
    }
  }

  /** A receiver reading the FIFO two bytes at a time gets the key back. */
  lemma {:induction false} KeyBytesRoundTrip(key: seq<u16>)
    ensures Words(KeyBytes(key)) == key
    decreases |key|
  {
    if key != [] {
      var b := KeyBytes(key);
      assert b[2..] == KeyBytes(key[1..]) by {
        forall i | 0 <= i < |b[2..]| ensures b[2..][i] == KeyBytes(key[1..])[i] {
          assert key[1..][i / 2] == key[(i + 2) / 2];
        }
      }
      KeyBytesRoundTrip(key[1..]);
      WordOfBytes(key[0]);
    }
  }

  /** What became of the key loop. */
  datatype LoopOutcome =
    | Completed(ops: seq<Op>)
    | ReadsPastEnd(index: nat)   // the first `key[z]` with `z` beyond the array

  /** `for (z = start; z < bound; ++z)` pushing both bytes of `key[z]`. A
      read past the array is undefined in C; the outcome records where it
      first happens instead of guessing what the read returns. */
  function KeyLoop(key: seq<u16>, start: nat, bound: nat): LoopOutcome
    decreases bound - start
  {
    if start >= bound then Completed([])
    else if start >= |key| then ReadsPastEnd(start)
    else
      match KeyLoop(key, start + 1, bound)
      case Completed(rest) => Completed(WordPushes(key[start]) + rest)
      case ReadsPastEnd(i) => ReadsPastEnd(i)
  }

  /** `sizeof` of an array of 16-bit words counts bytes, not elements. */
  function SizeofBytes(key: seq<u16>): nat {
    2 * |key|
  }

  /** Bounded by the element count, the loop pushes the whole key. */
  lemma {:induction false} KeyLoopByCount(key: seq<u16>, start: nat)
    requires start <= |key|
    ensures KeyLoop(key, start, |key|) == Completed(KeyPushes(key[start..]))
    decreases |key| - start
  {
    if start < |key| {
      KeyLoopByCount(key, start + 1);
      assert key[start..][1..] == key[start + 1..];
    }
  }

  /** Bounded by anything past the element count, the loop reads beyond
      the array, first at index |key|. */
  lemma {:induction false} KeyLoopOverruns(key: seq<u16>, start: nat, bound: nat)
    requires start <= |key| < bound
    ensures KeyLoop(key, start, bound) == ReadsPastEnd(|key|)
    decreases |key| - start
  {
    if start < |key| {
      KeyLoopOverruns(key, start + 1, bound);
    }
  }

  /** The loop as written, `z < sizeof(GENERATED_DEMO_KEY)`, runs to 8 on a
      4-word key and reads `GENERATED_DEMO_KEY[4]`. */
  lemma SizeofBoundOverruns()
    ensures SizeofBytes(DemoKey) == 8
    ensures KeyLoop(DemoKey, 0, SizeofBytes(DemoKey)) == ReadsPastEnd(4)
  {
    KeyLoopOverruns(DemoKey, 0, SizeofBytes(DemoKey));
  }

  /** The handler's register writes with the loop bounded by the element
      count, the bound the loop evidently intends. */
  function TimerA0Ops(l: Layout): seq<Op> {
    [AndCtl(DOWNLINK_MASK)] + KeyPushes(DemoKey) + [OrCtl(l.txen)]
  }

  /** The handler's register writes with the loop as written. */
  function TimerA0OpsAsWritten(l: Layout): LoopOutcome {
    match KeyLoop(DemoKey, 0, SizeofBytes(DemoKey))
    case Completed(pushes) => Completed([AndCtl(DOWNLINK_MASK)] + pushes + [OrCtl(l.txen)])
    case ReadsPastEnd(i) => ReadsPastEnd(i)
  }

  lemma AsWrittenReadsPastEnd(l: Layout)
    ensures TimerA0OpsAsWritten(l) == ReadsPastEnd(4)
  {
    SizeofBoundOverruns();
  }

  /** The loop bounded by the element count runs to completion, and what
      it writes is exactly the FIFO part of the corrected handler, between
      the mask and the transmit enable. */
  lemma CorrectedLoopMatches(l: Layout)
    ensures KeyLoop(DemoKey, 0, |DemoKey|) == Completed(TimerA0Ops(l)[1..9])
  {
    KeyLoopByCount(DemoKey, 0);
    assert DemoKey[0..] == DemoKey;
    KeyPushesShape(DemoKey);
    assert TimerA0Ops(l)[1..9] == KeyPushes(DemoKey);
  }

  /** One run of the handler on the radio registers. */
  function TimerA0(l: Layout, r: Regs): Regs {
    Exec(r, TimerA0Ops(l))
  }

  lemma DemoKeyBytes()
    ensures KeyBytes(DemoKey) == [0xFF, 0x00, 0xFF, 0x00, 0x00, 0x00, 0xFF, 0xFF]
  {
  }

  /** The order of the writes: the AND mask first, then the eight FIFO
      pushes, then the transmit enable, and nothing else. */
  lemma TimerA0Order(l: Layout)
    ensures var ops := TimerA0Ops(l);
      && |ops| == 10
      && ops[0] == AndCtl(DOWNLINK_MASK)
      && (forall i :: 1 <= i < 9 ==> ops[i].IsPush())
      && ops[9] == OrCtl(l.txen)
  {
    KeyPushesShape(DemoKey);
    var ops := TimerA0Ops(l);
    forall i | 1 <= i < 9 ensures ops[i].IsPush() {
      assert ops[i] == KeyPushes(DemoKey)[i - 1];
    }
  }

  lemma CtlAfterOne(w: bv16, op: Op)
    ensures CtlAfter(w, [op]) == CtlStep(w, op)
  {
    assert [op][1..] == [];
  }

  /** While the FIFO is loaded, from the mask write through every push,
      bit 0 and the high byte of RF13MCTL are clear and bits 1-7 are as
      they were. */
  lemma DownlinkOffWhileLoading(l: Layout, r: Regs, k: nat)
    requires 1 <= k <= 9
    ensures var c := CtlAfter(r.ctl, TimerA0Ops(l)[..k]);
      c & 0xFF01 == 0 && c & 0x00FE == r.ctl & 0x00FE
  {
    var ops := TimerA0Ops(l);
    var pushes := ops[1..k];
    assert ops[..k] == [AndCtl(DOWNLINK_MASK)] + pushes;
    TimerA0Order(l);
    assert PushOnly(pushes) by {
      forall i | 0 <= i < |pushes| ensures pushes[i].IsPush() {
        assert pushes[i] == ops[i + 1];
      }
    }
    CtlConcat(r.ctl, [AndCtl(DOWNLINK_MASK)], pushes);
    CtlAfterOne(r.ctl, AndCtl(DOWNLINK_MASK));
    PushOnlyCtl(r.ctl & DOWNLINK_MASK, pushes);
    MaskEffect(r.ctl);
  }

  /** The receive enable RF13MRXEN while the FIFO is loaded: whatever its
      bit, it keeps its old value when it lies in bits 1-7 and is clear
      otherwise. Only when it is bit 0, the bit the comment on the mask
      names, is reception off throughout. */
  lemma ReceiveEnableWhileLoading(l: Layout, r: Regs, k: nat)
    requires 1 <= k <= 9
    ensures CtlAfter(r.ctl, TimerA0Ops(l)[..k]) & l.rxen == (r.ctl & DOWNLINK_MASK) & l.rxen
    ensures l.rxen == 0x0001 ==> CtlAfter(r.ctl, TimerA0Ops(l)[..k]) & l.rxen == 0
  {
    var c := CtlAfter(r.ctl, TimerA0Ops(l)[..k]);
    DownlinkOffWhileLoading(l, r, k);
    assert c == r.ctl & DOWNLINK_MASK by {
      SplitByMask(c, r.ctl);
    }
  }

  /** A word is fixed by its bits under 0xFF01 and under 0x00FE. */
  lemma SplitByMask(c: bv16, w: bv16)
    requires c & 0xFF01 == 0 && c & 0x00FE == w & 0x00FE
    ensures c == w & DOWNLINK_MASK
  {
  }

  lemma MaskEffect(w: bv16)
    ensures (w & DOWNLINK_MASK) & 0xFF01 == 0
    ensures (w & DOWNLINK_MASK) & 0x00FE == w & 0x00FE
  {
  }

  /** One run of the handler leaves RF13MCTL with only its bits 1-7 and the
      transmit enable. */
  lemma TimerA0Ctl(l: Layout, r: Regs)
    ensures TimerA0(l, r).ctl == (r.ctl & DOWNLINK_MASK) | l.txen
  {
    var pushes := KeyPushes(DemoKey);
    var a: seq<Op> := [AndCtl(DOWNLINK_MASK)];
    KeyPushesShape(DemoKey);
    CtlConcat(r.ctl, a + pushes, [OrCtl(l.txen)]);
    CtlConcat(r.ctl, a, pushes);
    CtlAfterOne(r.ctl, AndCtl(DOWNLINK_MASK));
    PushOnlyCtl(r.ctl & DOWNLINK_MASK, pushes);
    CtlAfterOne(r.ctl & DOWNLINK_MASK, OrCtl(l.txen));
  }

  /** One run of the handler leaves RF13MINT untouched. */
  lemma TimerA0Irq(l: Layout, r: Regs)
    ensures TimerA0(l, r).irq == r.irq
  {
    var ops := TimerA0Ops(l);
    IrqAfterOrs(r.irq, ops);
    TimerA0Order(l);
    IrqNone(ops);
  }

  /** The bytes the corrected handler pushes are the serialised demo key. */
  lemma TimerA0Pushed(l: Layout)
    ensures Pushed(TimerA0Ops(l)) == KeyBytes(DemoKey)
  {
    var pushes := KeyPushes(DemoKey);
    var a: seq<Op> := [AndCtl(DOWNLINK_MASK)];
    var t: seq<Op> := [OrCtl(l.txen)];
    PushedConcat(a + pushes, t);
    PushedConcat(a, pushes);
    assert a[1..] == [] && t[1..] == [];
    KeyPushesBytes(DemoKey);
  }

  /** One run of the handler appends FF 00 FF 00 00 00 FF FF to the
      transmit FIFO, which a reader takes two bytes at a time back to the
      demo key. */
  lemma TimerA0Fifo(l: Layout, r: Regs)
    ensures TimerA0(l, r).txFifo == r.txFifo + [0xFF, 0x00, 0xFF, 0x00, 0x00, 0x00, 0xFF, 0xFF]
    ensures Words(TimerA0(l, r).txFifo[|r.txFifo|..]) == DemoKey
  {
    var fifo := TimerA0(l, r).txFifo;
    assert fifo == r.txFifo + KeyBytes(DemoKey) by {
      TimerA0Pushed(l);
    }
    assert fifo[|r.txFifo|..] == KeyBytes(DemoKey);
    DemoKeyBytes();
    KeyBytesRoundTrip(DemoKey);
  }

  /** A log without RF13MINT writes ORs nothing into it. */
  lemma {:induction false} IrqNone(ops: seq<Op>)
    requires forall i :: 0 <= i < |ops| ==> !ops[i].OrIrq?
    ensures IrqBits(ops) == 0
    decreases |ops|
  {
    if ops != [] {
      assert forall i :: 0 <= i < |ops[1..]| ==> ops[1..][i] == ops[i + 1];
      IrqNone(ops[1..]);
    }
  }
}
