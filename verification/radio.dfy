/** The RF13M radio registers that the firmware touches: the control word
    RF13MCTL, the interrupt-enable word RF13MINT and the transmit FIFO fed
    through RF13MTXF_H / RF13MTXF_L. Code that writes them is described as an
    ordered log of register operations. */
module Radio {
  import opened Bytes

  /** Bit values of the named RF13MCTL and RF13MINT flags. The device header
      that fixes them is not part of this model, so every theorem here holds
      whatever these values are. */
  datatype Layout = Layout(
    be: bv16,       // RF13MBE, big-endian mode
    rxen: bv16,     // RF13MRXEN
    txen: bv16,     // RF13MTXEN
    rftoen: bv16,   // RF13MRFTOEN, RF timeout detection
    mcfg: bv16,     // RF13MMCFG, manual ISO15693 configuration
    dr: bv16,       // RF13MDR, high data rate
    sc: bv16,       // RF13MSC, two subcarriers
    rxie: bv16,     // RF13MRXIE
    rftoie: bv16,   // RX13MRFTOIE, as spelled at main.c:342
    txie: bv16)     // RF13MTXIE

  datatype Regs = Regs(ctl: bv16, irq: bv16, txFifo: seq<byte>)

  datatype Op =
    | OrCtl(bits: bv16)      // RF13MCTL |= bits
    | AndCtl(mask: bv16)     // RF13MCTL &= mask
    | OrIrq(bits: bv16)      // RF13MINT |= bits
    | WriteTxHigh(b: byte)    // RF13MTXF_H = b
    | WriteTxLow(b: byte)     // RF13MTXF_L = b
  {
    /** A write that pushes one byte into the transmit FIFO. */
    predicate IsPush() {
      WriteTxHigh? || WriteTxLow?
    }

    predicate IsOr() {
      OrCtl? || OrIrq?
    }
  }

  /** RF13MCTL after one operation. */
  function CtlStep(w: bv16, op: Op): bv16 {
    if op.OrCtl? then w | op.bits
    else if op.AndCtl? then w & op.mask
    else w
  }

  /** RF13MCTL after the log, starting from `w`. */
  function CtlAfter(w: bv16, ops: seq<Op>): bv16
    decreases |ops|
  {
    if ops == [] then w else CtlAfter(CtlStep(w, ops[0]), ops[1..])
  }

  /** RF13MINT after the log, starting from `w`. */
  function IrqAfter(w: bv16, ops: seq<Op>): bv16
    decreases |ops|
  {
    if ops == [] then w
    else IrqAfter(if ops[0].OrIrq? then w | ops[0].bits else w, ops[1..])
  }

  /** The bytes a log pushes into the transmit FIFO, in order. */
  function Pushed(ops: seq<Op>): seq<byte>
    decreases |ops|
  {
    if ops == [] then []
    else (if ops[0].IsPush() then [ops[0].b] else []) + Pushed(ops[1..])
  }

  /** Performs a log of register operations in order. Each register only
      sees the operations addressed to it, so the log is folded register by
      register. */
  function Exec(r: Regs, ops: seq<Op>): Regs {
    Regs(CtlAfter(r.ctl, ops), IrqAfter(r.irq, ops), r.txFifo + Pushed(ops))
  }

  lemma ExecConcat(r: Regs, a: seq<Op>, b: seq<Op>)
    ensures Exec(r, a + b) == Exec(Exec(r, a), b)
  {
    CtlConcat(r.ctl, a, b);
    IrqConcat(r.irq, a, b);
    PushedConcat(a, b);
  }

  lemma {:induction false} CtlConcat(w: bv16, a: seq<Op>, b: seq<Op>)
    ensures CtlAfter(w, a + b) == CtlAfter(CtlAfter(w, a), b)
    decreases |a|
  {
    if a == [] {
      assert a + b == b;
    } else {
      assert (a + b)[1..] == a[1..] + b;
      CtlConcat(CtlStep(w, a[0]), a[1..], b);
    }
  }

  lemma {:induction false} IrqConcat(w: bv16, a: seq<Op>, b: seq<Op>)
    ensures IrqAfter(w, a + b) == IrqAfter(IrqAfter(w, a), b)
    decreases |a|
  {
    if a == [] {
      assert a + b == b;
    } else {
      assert (a + b)[1..] == a[1..] + b;
      IrqConcat(if a[0].OrIrq? then w | a[0].bits else w, a[1..], b);
    }
  }

  lemma {:induction false} PushedConcat(a: seq<Op>, b: seq<Op>)
    ensures Pushed(a + b) == Pushed(a) + Pushed(b)
    decreases |a|
  {
    if a == [] {
      assert a + b == b;
    } else {
      var head := if a[0].IsPush() then [a[0].b] else [];
      assert (a + b)[0] == a[0] && (a + b)[1..] == a[1..] + b;
      assert Pushed(a + b) == head + Pushed(a[1..] + b);
      PushedConcat(a[1..], b);
      assert head + (Pushed(a[1..]) + Pushed(b)) == (head + Pushed(a[1..])) + Pushed(b);
    }
  }

  /** The union of the bits a log ORs into RF13MCTL. */
  function CtlBits(ops: seq<Op>): bv16
    decreases |ops|
  {
    if ops == [] then 0 else (if ops[0].OrCtl? then ops[0].bits else 0) | CtlBits(ops[1..])
  }

  /** The union of the bits a log ORs into RF13MINT. */
  function IrqBits(ops: seq<Op>): bv16
    decreases |ops|
  {
    if ops == [] then 0 else (if ops[0].OrIrq? then ops[0].bits else 0) | IrqBits(ops[1..])
  }

  /** Every operation of the log is an OR write. */
  predicate OrOnly(ops: seq<Op>)
    decreases |ops|
  {
    ops == [] || (ops[0].IsOr() && OrOnly(ops[1..]))
  }

  ghost predicate PushOnly(ops: seq<Op>) {
    forall i :: 0 <= i < |ops| ==> ops[i].IsPush()
  }

  /** Without AND writes, RF13MCTL ends up holding exactly its old bits and
      the union of the ORed ones. */
  lemma {:induction false} OrOnlyCtl(w: bv16, ops: seq<Op>)
    requires OrOnly(ops)
    ensures CtlAfter(w, ops) == w | CtlBits(ops)
    decreases |ops|
  {
    if ops != [] {
      OrOnlyCtl(CtlStep(w, ops[0]), ops[1..]);
    }
  }

  /** RF13MINT ends up holding its old bits and the union of the ORed ones. */
  lemma {:induction false} IrqAfterOrs(w: bv16, ops: seq<Op>)
    ensures IrqAfter(w, ops) == w | IrqBits(ops)
    decreases |ops|
  {
    if ops != [] {
      IrqAfterOrs(if ops[0].OrIrq? then w | ops[0].bits else w, ops[1..]);
    }
  }

  /** A log of FIFO writes pushes one byte per write. */
  lemma {:induction false} PushOnlyCount(ops: seq<Op>)
    requires PushOnly(ops)
    ensures |Pushed(ops)| == |ops|
    decreases |ops|
  {
    if ops != [] {
      assert PushOnly(ops[1..]) by {
        forall i | 0 <= i < |ops[1..]| ensures ops[1..][i].IsPush() {
          assert ops[1..][i] == ops[i + 1];
        }
      }
      assert ops[0].IsPush();
      PushOnlyCount(ops[1..]);
    }
  }

  /** A log of FIFO writes leaves RF13MCTL alone. */
  lemma {:induction false} PushOnlyCtl(w: bv16, ops: seq<Op>)
    requires PushOnly(ops)
    ensures CtlAfter(w, ops) == w
    decreases |ops|
  {
    if ops != [] {
      assert PushOnly(ops[1..]) by {
        forall i | 0 <= i < |ops[1..]| ensures ops[1..][i].IsPush() {
          assert ops[1..][i] == ops[i + 1];
        }
      }
      assert ops[0].IsPush();
      PushOnlyCtl(w, ops[1..]);
    }
  }
}
