/**
 The I2C/DMA transport reduced to the requests it is given, in program order:
 a read of `len` bytes from a register, or a write of a byte to a register,
 each addressed to a device on the bus.
 */
module Bus {
  import opened Registers

  datatype Event =
    | Read(bus: Byte, reg: Reg, len: nat)
    | Write(bus: Byte, reg: Reg, value: Byte, len: nat)

  /** The values the sensor holds in its registers; it answers every read with them. */
  type Device = Reg -> Byte

  /** The writes of a trace, in the order they were issued. */
  function Writes(t: seq<Event>): (w: seq<Event>)
    ensures |w| <= |t|
    ensures forall i :: 0 <= i < |w| ==> w[i].Write?
  {
    if t == [] then []
    else (if t[0].Write? then [t[0]] else []) + Writes(t[1..])
  }

  /** Filtering the writes distributes over concatenation of traces. */
  lemma {:induction false} WritesAppend(a: seq<Event>, b: seq<Event>)
    ensures Writes(a + b) == Writes(a) + Writes(b)
  {
    if a == [] {
      assert a + b == b;
    } else {
      assert (a + b)[1..] == a[1..] + b;
      WritesAppend(a[1..], b);
    }
  }

  /** A trace of reads only contains no write. */
  lemma {:induction false} WritesOfReads(t: seq<Event>)
    requires forall i :: 0 <= i < |t| ==> t[i].Read?
    ensures Writes(t) == []
  {
    if t != [] {
      WritesOfReads(t[1..]);
    }
  }

  /** A trace of writes only is its own list of writes. */
  lemma {:induction false} WritesOfWrites(t: seq<Event>)
    requires forall i :: 0 <= i < |t| ==> t[i].Write?
    ensures Writes(t) == t
  {
    if t != [] {
      WritesOfWrites(t[1..]);
    }
  }

  /** The register file after one request: a write replaces the value of
      its register, a read leaves the register file as it was. */
  function Apply(dev: Device, e: Event): (d: Device)
    ensures forall r :: d(r) == (if e.Write? && e.reg == r then e.value else dev(r))
  {
    match e
    case Read(_, _, _) => dev
    case Write(_, reg, value, _) => (r: Reg) => if r == reg then value else dev(r)
  }

  /** Request `i` of the trace is a write that no later write to the same register overrides. */
  predicate LastWriteAt(t: seq<Event>, i: nat)
    requires i < |t|
  {
    t[i].Write? && forall j :: i < j < |t| && t[j].Write? ==> t[j].reg != t[i].reg
  }

  /** The register file after the requests of a trace land in order. A
      register no write touches keeps its value; a register ends up with the
      value of the last write to it. */
  function Replay(dev: Device, t: seq<Event>): (d: Device)
    ensures forall r :: (forall i :: 0 <= i < |t| && t[i].Write? ==> t[i].reg != r) ==> d(r) == dev(r)
    ensures forall i :: 0 <= i < |t| && LastWriteAt(t, i) ==> d(t[i].reg) == t[i].value
  {
    if t == [] then dev
    else Replay(Apply(dev, t[0]), t[1..])
  }
}
