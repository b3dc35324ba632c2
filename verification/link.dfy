/** Bring-up of the ISO 15693 link: the configuration writes to RF13MCTL and
    RF13MINT, and the optional reset of the lock-block area in FRAM. */
module Link {
  import opened Bytes
  import opened Radio
  import NvmLayout

  const CLEAR_BLOCK_LOCKS: bv16 := 0x0008          // BIT3
  const FRAM_LOCK_BLOCKS: nat := 0xF840             // address of the ISO 15693 lock blocks
  const FRAM_LOCK_BLOCK_AREA_SIZE: nat := 38
  const LOCK_AREA_END: nat := FRAM_LOCK_BLOCKS + FRAM_LOCK_BLOCK_AREA_SIZE
  /** The literal ORed into RF13MCTL next to RF13MDR and RF13MSC to turn on
      inventory handling. */
  const INVENTORY_MODE: bv16 := 0x0040
  /** A lock block reads as locked where a bit is zero, so all-ones is
      "nothing locked". */
  const UNLOCKED: byte := 0xFF

  /** The 16-bit byte-addressed memory space. */
  type Memory = m: seq<byte> | |m| == 0x10000 witness seq(0x10000, _ => 0)

  datatype Device = Device(regs: Regs, mem: Memory)

  /** The nine register writes of `initISO15693`, in source order: six to
      RF13MCTL, then three to RF13MINT. Each write is its own one-element
      log so that the proofs can peel them off one at a time. */
  function ConfigOps(l: Layout): seq<Op> {
    [OrCtl(l.be)] + ([OrCtl(l.rxen)] + ([OrCtl(l.txen)] + ([OrCtl(l.rftoen)] + ([OrCtl(l.mcfg)]
    + ([OrCtl(ModeBits(l))] + IrqConfigOps(l))))))
  }

  function IrqConfigOps(l: Layout): seq<Op> {
    [OrIrq(l.rxie)] + ([OrIrq(l.rftoie)] + [OrIrq(l.txie)])
  }

  /** The word ORed in by the sixth write: inventory, high data rate and
      two subcarriers, summed as the source sums them. */
  function ModeBits(l: Layout): bv16 {
    INVENTORY_MODE + l.dr + l.sc
  }

  /** The radio half of `initISO15693`. */
  function ConfigureRadio(l: Layout, r: Regs): Regs {
    Exec(r, ConfigOps(l))
  }

  /** `memset(mem + addr, v, n)`, as a whole-memory value. */
  function Fill(mem: Memory, addr: nat, n: nat, v: byte): (r: Memory)
    requires addr + n <= |mem|
    ensures forall j :: 0 <= j < |r| ==> r[j] == if addr <= j < addr + n then v else mem[j]
  {
    mem[..addr] + seq(n, _ => v) + mem[addr + n..]
  }

  /** The byte loop of `memset`: stores `v` at `addr`, `addr + 1`, ... in
      turn. */
  method Memset(mem: Memory, addr: nat, v: byte, n: nat) returns (r: Memory)
    requires addr + n <= |mem|
    ensures r == Fill(mem, addr, n, v)
  {
    r := mem;
    var i := 0;
    while i < n
      invariant 0 <= i <= n
      invariant forall j :: 0 <= j < |r| ==> r[j] == if addr <= j < addr + i then v else mem[j]
    {
      r := r[addr + i := v];
      i := i + 1;
    }
    var f := Fill(mem, addr, n, v);
    assert forall j :: 0 <= j < |r| ==> r[j] == f[j];
  }

  /** `initISO15693(parameters)`. */
  function InitIso15693(l: Layout, d: Device, parameters: bv16): Device {
    var regs := ConfigureRadio(l, d.regs);
    if parameters & CLEAR_BLOCK_LOCKS != 0 then
      Device(regs, Fill(d.mem, FRAM_LOCK_BLOCKS, FRAM_LOCK_BLOCK_AREA_SIZE, UNLOCKED))
    else
      Device(regs, d.mem)
  }

  lemma UnfoldCtl(op: Op, rest: seq<Op>)
    ensures CtlBits([op] + rest) == (if op.OrCtl? then op.bits else 0) | CtlBits(rest)
  {
    assert ([op] + rest)[1..] == rest;
  }

  lemma UnfoldIrq(op: Op, rest: seq<Op>)
    ensures IrqBits([op] + rest) == (if op.OrIrq? then op.bits else 0) | IrqBits(rest)
  {
    assert ([op] + rest)[1..] == rest;
  }

  lemma UnfoldShape(op: Op, rest: seq<Op>)
    ensures OrOnly([op] + rest) == (op.IsOr() && OrOnly(rest))
    ensures Pushed([op] + rest) == (if op.IsPush() then [op.b] else []) + Pushed(rest)
  {
    assert ([op] + rest)[1..] == rest;
  }

  lemma IrqConfigOpsCtl(l: Layout)
    ensures CtlBits(IrqConfigOps(l)) == 0
  {
    var s8: seq<Op> := [OrIrq(l.txie)];
    assert s8 == [OrIrq(l.txie)] + [];
    UnfoldCtl(OrIrq(l.txie), []);
    UnfoldCtl(OrIrq(l.rftoie), s8);
    UnfoldCtl(OrIrq(l.rxie), [OrIrq(l.rftoie)] + s8);
  }

  lemma IrqConfigOpsIrq(l: Layout)
    ensures IrqBits(IrqConfigOps(l)) == (l.rxie | l.rftoie | l.txie)
  {
    var s8: seq<Op> := [OrIrq(l.txie)];
    assert s8 == [OrIrq(l.txie)] + [];
    UnfoldIrq(OrIrq(l.txie), []);
    UnfoldIrq(OrIrq(l.rftoie), s8);
    UnfoldIrq(OrIrq(l.rxie), [OrIrq(l.rftoie)] + s8);
  }

  lemma IrqConfigOpsShape(l: Layout)
    ensures OrOnly(IrqConfigOps(l)) && Pushed(IrqConfigOps(l)) == []
  {
    var s8: seq<Op> := [OrIrq(l.txie)];
    assert s8 == [OrIrq(l.txie)] + [];
    UnfoldShape(OrIrq(l.txie), []);
    UnfoldShape(OrIrq(l.rftoie), s8);
    UnfoldShape(OrIrq(l.rxie), [OrIrq(l.rftoie)] + s8);
  }

  /** The configuration log ORs exactly the ORed control flags into RF13MCTL. */
  lemma ConfigOpsCtl(l: Layout)
    ensures CtlBits(ConfigOps(l)) == (l.be | l.rxen | l.txen | l.rftoen | l.mcfg | ModeBits(l))
  {
    IrqConfigOpsCtl(l);
    var x := ModeBits(l);
    var s6 := IrqConfigOps(l);
    var s5 := [OrCtl(x)] + s6;         UnfoldCtl(OrCtl(x), s6);
    var s4 := [OrCtl(l.mcfg)] + s5;    UnfoldCtl(OrCtl(l.mcfg), s5);
    var s3 := [OrCtl(l.rftoen)] + s4;  UnfoldCtl(OrCtl(l.rftoen), s4);
    var s2 := [OrCtl(l.txen)] + s3;    UnfoldCtl(OrCtl(l.txen), s3);
    var s1 := [OrCtl(l.rxen)] + s2;    UnfoldCtl(OrCtl(l.rxen), s2);
    UnfoldCtl(OrCtl(l.be), s1);
  }

  /** The configuration log ORs exactly the ORed interrupt flags into RF13MINT. */
  lemma ConfigOpsIrq(l: Layout)
    ensures IrqBits(ConfigOps(l)) == (l.rxie | l.rftoie | l.txie)
  {
    IrqConfigOpsIrq(l);
    var x := ModeBits(l);
    var s6 := IrqConfigOps(l);
    var s5 := [OrCtl(x)] + s6;         UnfoldIrq(OrCtl(x), s6);
    var s4 := [OrCtl(l.mcfg)] + s5;    UnfoldIrq(OrCtl(l.mcfg), s5);
    var s3 := [OrCtl(l.rftoen)] + s4;  UnfoldIrq(OrCtl(l.rftoen), s4);
    var s2 := [OrCtl(l.txen)] + s3;    UnfoldIrq(OrCtl(l.txen), s3);
    var s1 := [OrCtl(l.rxen)] + s2;    UnfoldIrq(OrCtl(l.rxen), s2);
    UnfoldIrq(OrCtl(l.be), s1);
  }

  /** The configuration log holds nothing but OR writes. */
  lemma ConfigOpsShape(l: Layout)
    ensures OrOnly(ConfigOps(l)) && Pushed(ConfigOps(l)) == []
  {
    IrqConfigOpsShape(l);
    var x := ModeBits(l);
    var s6 := IrqConfigOps(l);
    var s5 := [OrCtl(x)] + s6;         UnfoldShape(OrCtl(x), s6);
    var s4 := [OrCtl(l.mcfg)] + s5;    UnfoldShape(OrCtl(l.mcfg), s5);
    var s3 := [OrCtl(l.rftoen)] + s4;  UnfoldShape(OrCtl(l.rftoen), s4);
    var s2 := [OrCtl(l.txen)] + s3;    UnfoldShape(OrCtl(l.txen), s3);
    var s1 := [OrCtl(l.rxen)] + s2;    UnfoldShape(OrCtl(l.rxen), s2);
    UnfoldShape(OrCtl(l.be), s1);
  }

  /** The bring-up leaves RF13MCTL holding its old bits and the six ORed
      words. */
  lemma ConfigCtlAfter(l: Layout, w: bv16)
    ensures CtlAfter(w, ConfigOps(l)) == w | (l.be | l.rxen | l.txen | l.rftoen | l.mcfg | ModeBits(l))
  {
    ConfigOpsShape(l);
    ConfigOpsCtl(l);
    OrOnlyCtl(w, ConfigOps(l));
  }

  /** The bring-up leaves RF13MINT holding its old bits and the three ORed
      words. */
  lemma ConfigIrqAfter(l: Layout, w: bv16)
    ensures IrqAfter(w, ConfigOps(l)) == w | (l.rxie | l.rftoie | l.txie)
  {
    ConfigOpsIrq(l);
    IrqAfterOrs(w, ConfigOps(l));
  }

  /** The bring-up ORs exactly the requested flags into RF13MCTL and
      RF13MINT: every flag already set stays set, nothing else is set, and
      the transmit FIFO is not touched. */
  lemma ConfigSetsFlags(l: Layout, r: Regs)
    ensures ConfigureRadio(l, r).ctl == r.ctl | (l.be | l.rxen | l.txen | l.rftoen | l.mcfg | ModeBits(l))
    ensures ConfigureRadio(l, r).irq == r.irq | (l.rxie | l.rftoie | l.txie)
    ensures ConfigureRadio(l, r).txFifo == r.txFifo
  {
    ConfigCtlAfter(l, r.ctl);
    ConfigIrqAfter(l, r.irq);
    ConfigOpsShape(l);
    assert r.txFifo + [] == r.txFifo;
  }

  /** With CLEAR_BLOCK_LOCKS among the parameters, the 38 bytes from
      FRAM_LOCK_BLOCKS on read 0xFF afterwards; every other byte of memory
      is left as it was. Without it, memory is untouched. */
  lemma BootstrapMemory(l: Layout, d: Device, parameters: bv16)
    ensures var m := InitIso15693(l, d, parameters).mem;
      && (parameters & CLEAR_BLOCK_LOCKS != 0 ==>
            forall a :: FRAM_LOCK_BLOCKS <= a < LOCK_AREA_END ==> m[a] == UNLOCKED)
      && (forall a :: 0 <= a < |m| && !(parameters & CLEAR_BLOCK_LOCKS != 0 && FRAM_LOCK_BLOCKS <= a < LOCK_AREA_END) ==>
            m[a] == d.mem[a])
  {
  }

  /** Running the bring-up a second time with the same parameters changes
      nothing. */
  lemma BootstrapIdempotent(l: Layout, d: Device, parameters: bv16)
    ensures var once := InitIso15693(l, d, parameters);
      InitIso15693(l, once, parameters) == once
  {
    var once := InitIso15693(l, d, parameters);
    var twice := InitIso15693(l, once, parameters);
    ConfigSetsFlags(l, d.regs);
    ConfigSetsFlags(l, once.regs);
    assert twice.regs.ctl == once.regs.ctl by {
      OrAbsorbs(d.regs.ctl, (l.be | l.rxen | l.txen | l.rftoen | l.mcfg | ModeBits(l)));
    }
    assert twice.regs.irq == once.regs.irq by {
      OrAbsorbs(d.regs.irq, (l.rxie | l.rftoie | l.txie));
    }
    BootstrapMemory(l, d, parameters);
    BootstrapMemory(l, once, parameters);
    assert forall a :: 0 <= a < |twice.mem| ==> twice.mem[a] == once.mem[a];
  }

  lemma OrAbsorbs(w: bv16, u: bv16)
    ensures (w | u) | u == w | u
  {
  }

  /** The call made at start-up, `initISO15693(CLEAR_BLOCK_LOCKS)`, unlocks
      every lock block and leaves the firmware control byte and the NDEF
      area, which sit just above the lock area, as they were: an image
      holding `NFC_NDEF_Message` still holds it afterwards. */
  lemma StartupBootstrap(l: Layout, d: Device)
    ensures var m := InitIso15693(l, d, CLEAR_BLOCK_LOCKS).mem;
      && (forall a :: FRAM_LOCK_BLOCKS <= a < LOCK_AREA_END ==> m[a] == UNLOCKED)
      && m[NvmLayout.FIRMWARE_CONTROL_ADDRESS] == d.mem[NvmLayout.FIRMWARE_CONTROL_ADDRESS]
      && m[NvmLayout.NDEF_START_ADDRESS..NvmLayout.NDEF_START_ADDRESS + NvmLayout.NDEF_AREA_SIZE]
         == d.mem[NvmLayout.NDEF_START_ADDRESS..NvmLayout.NDEF_START_ADDRESS + NvmLayout.NDEF_AREA_SIZE]
    ensures d.mem[NvmLayout.NDEF_START_ADDRESS..NvmLayout.NDEF_START_ADDRESS + NvmLayout.NDEF_AREA_SIZE] == NvmLayout.NfcNdefMessage
      ==> InitIso15693(l, d, CLEAR_BLOCK_LOCKS).mem[NvmLayout.NDEF_START_ADDRESS..NvmLayout.NDEF_START_ADDRESS + NvmLayout.NDEF_AREA_SIZE]
          == NvmLayout.NfcNdefMessage
  {
    BootstrapMemory(l, d, CLEAR_BLOCK_LOCKS);
  }
}
