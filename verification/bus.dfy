/**
 An abstract model of the two buses the camera module sits on: the register
 bus (SPI) to the FIFO/control chip and the sensor bus (I2C) to the OV2640
 image sensor.

 Nothing here talks to hardware. Every bus operation the driver performs is
 appended, as an `Event`, to one shared trace, and a scripted `Oracle` decides,
 from the trace so far and the operation itself, whether the operation succeeds
 and which bytes the device sends back. `Exec` is the reference semantics of
 "issue these operations in order and stop at the first failure" against which
 every driver operation is proved.
 */
module Bus {

  /** One byte on either bus (Rust `u8`). */
  type byte = bv8

  /** One step of a register-bus transaction (embedded-hal `Operation`). */
  datatype SpiOp = Write(bytes: seq<byte>) | Read(len: nat)

  /** One entry of the bus trace. */
  datatype Event =
    | SpiTransaction(ops: seq<SpiOp>)
    | I2cWrite(addr: byte, bytes: seq<byte>)
    | I2cWriteRead(addr: byte, bytes: seq<byte>, readLen: nat)
    | Delay(ms: nat)

  /** What the device answers to one bus operation. */
  datatype Reply = Ack(data: seq<byte>) | Nak

  /** The scripted device: given the history and the next operation, its reply. */
  type Oracle = (seq<Event>, Event) -> Reply

  /** A pause cannot fail; every bus operation fails exactly when the device refuses it. */
  predicate Refused(h: seq<Event>, o: Oracle, e: Event)
  {
    !e.Delay? && o(h, e).Nak?
  }

  /** The `k`-th operation of `plan`, issued after `h` and the `k` operations before it, succeeds. */
  predicate Acked(h: seq<Event>, o: Oracle, plan: seq<Event>, k: nat)
    requires k < |plan|
  {
    !Refused(h + plan[..k], o, plan[k])
  }

  /** An optional value. */
  datatype Option<+T> = None | Some(value: T)

  /** What issuing a plan leaves behind: the history after it, and the operation the device refused, if any. */
  datatype Run = Run(trace: seq<Event>, refused: Option<Event>)

  /**
   Issues the operations of `plan` from index `i` on, in order, after history
   `h`, stopping right after the first one the device refuses.
   */
  function Exec(h: seq<Event>, o: Oracle, plan: seq<Event>, i: nat): (run: Run)
    requires i <= |plan|
    decreases |plan| - i
  {
    if i == |plan| then Run(h, None)
    else if Refused(h, o, plan[i]) then Run(h + [plan[i]], Some(plan[i]))
    else Exec(h + [plan[i]], o, plan, i + 1)
  }

  /** Issuing from index `i` depends only on the operations from `i` on. */
  lemma {:induction false} ExecSuffix(h: seq<Event>, o: Oracle, plan: seq<Event>, j: nat, i: nat)
    requires j <= i <= |plan|
    ensures Exec(h, o, plan, i) == Exec(h, o, plan[j..], i - j)
    decreases |plan| - i
  {
    if i < |plan| {
      assert plan[j..][i - j] == plan[i];
      ExecSuffix(h + [plan[i]], o, plan, j, i + 1);
    }
  }

  /**
   Issuing a plan from index `i` after the history `h + plan[..i]` either
   issues all the rest, every operation acknowledged, or stops right after the
   first refused operation `plan[n]`, every operation before it acknowledged.
   */
  lemma {:induction false} ExecStopsAtFirstRefusal(h: seq<Event>, o: Oracle, plan: seq<Event>, i: nat)
    requires i <= |plan|
    ensures var run := Exec(h + plan[..i], o, plan, i);
      && (run.refused.None? ==>
            run.trace == h + plan && forall k :: i <= k < |plan| ==> Acked(h, o, plan, k))
      && (run.refused.Some? ==> exists n :: (
            && i <= n < |plan|
            && run == Run(h + plan[..n + 1], Some(plan[n]))
            && (forall k :: i <= k < n ==> Acked(h, o, plan, k))
            && !Acked(h, o, plan, n)))
    decreases |plan| - i
  {
    if i == |plan| {
      assert plan[..i] == plan;
    } else {
      assert h + plan[..i] + [plan[i]] == h + plan[..i + 1];
      if !Refused(h + plan[..i], o, plan[i]) {
        ExecStopsAtFirstRefusal(h, o, plan, i + 1);
      }
    }
  }

  /**
   Issuing `p` and then `q` stops inside `p` if the device refuses part of
   `p`, and otherwise issues `q` after the history all of `p` left behind.
   */
  lemma {:induction false} ExecAppend(h: seq<Event>, o: Oracle, p: seq<Event>, q: seq<Event>, i: nat)
    requires i <= |p|
    ensures Exec(h, o, p + q, i) ==
      var a := Exec(h, o, p, i);
      if a.refused.Some? then a else Exec(a.trace, o, q, 0)
    decreases |p| - i
  {
    if i == |p| {
      ExecSuffix(h, o, p + q, |p|, |p|);
      assert (p + q)[|p|..] == q;
    } else {
      assert (p + q)[i] == p[i];
      ExecAppend(h + [p[i]], o, p, q, i + 1);
    }
  }

  /**
   The caller's buffer after the device answered `rep`: the bytes the device
   sent overwrite the buffer from its start, and a read never changes its length.
   A successful embedded-hal read fills the whole buffer; an answer shorter than
   the buffer is possible only in this model, and leaves the rest as it was.
   */
  function Fill(buf: seq<byte>, rep: Reply): (r: seq<byte>)
    ensures |r| == |buf|
  {
    match rep
    case Nak => buf
    case Ack(data) =>
      if |buf| <= |data| then data[..|buf|] else data + buf[|data|..]
  }

  /** Each byte of the filled buffer is the device's byte at that position if it sent one, else the buffer's own. */
  lemma FillBytes(buf: seq<byte>, rep: Reply)
    ensures forall i :: 0 <= i < |buf| ==>
      Fill(buf, rep)[i] == if rep.Ack? && i < |rep.data| then rep.data[i] else buf[i]
  {
  }

  /** The byte a one-byte read yields: the device's first byte, or the buffer's initial zero if it sent none. */
  function FirstByte(rep: Reply): (b: byte)
    ensures Fill([0], rep) == [b]
  {
    FillBytes([0], rep);
    if rep.Ack? && |rep.data| > 0 then rep.data[0] else 0
  }
}
