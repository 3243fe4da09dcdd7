/**
 The capture state machine: clear the FIFO, trigger a capture, poll the
 trigger register for completion, read the reported length and drain the
 FIFO in one burst, which leaves the FIFO cleared again.
 */
module Capture {
  import opened Bus
  import opened Camera
  import opened Registers

  /** FIFO control register (Rust `ARDUCHIP_FIFO`). */
  const ARDUCHIP_FIFO: byte := 0x04
  /** Trigger/status register (Rust `ARDUCHIP_TRIG`). */
  const ARDUCHIP_TRIG: byte := 0x41
  /** FIFO control command: clear the FIFO (Rust `FIFO_CLEAR_MASK`). */
  const FIFO_CLEAR_MASK: byte := 0x01
  /** FIFO control command: start a capture (Rust `FIFO_START_MASK`). */
  const FIFO_START_MASK: byte := 0x02
  /** Burst-read opcode (Rust `FIFO_BURST`). */
  const FIFO_BURST: byte := 0x3C
  /** Low, middle and high byte of the FIFO length (Rust `FIFO_SIZE1`..`FIFO_SIZE3`). */
  const FIFO_SIZE1: byte := 0x42
  const FIFO_SIZE2: byte := 0x43
  const FIFO_SIZE3: byte := 0x44
  /** Capture-done bit of the trigger register (Rust `CAP_DONE_MASK`). */
  const CAP_DONE_MASK: byte := 0x08

  /** The burst transaction that drains `len` bytes from the FIFO. */
  function BurstRead(len: nat): Event
  {
    SpiTransaction([Write([FIFO_BURST]), Read(len)])
  }

  /** Clears the FIFO (Rust `flush_fifo`): one write of 0x01 to register 0x04, sent as 0x84. */
  function FlushFifo(d: Arducam, o: Oracle): (r: Ret<()>)
    ensures Performs(d, o, [SpiTransaction([Write([0x84]), Write([0x01])])], r)
    ensures r.Failed? ==> r.error == Spi
  {
    ArduchipWriteReg(d, o, ARDUCHIP_FIFO, FIFO_CLEAR_MASK)
  }

  /** Starts a capture (Rust `start_fifo`): one write of 0x02 to register 0x04, sent as 0x84. */
  function StartFifo(d: Arducam, o: Oracle): (r: Ret<()>)
    ensures Performs(d, o, [SpiTransaction([Write([0x84]), Write([0x02])])], r)
    ensures r.Failed? ==> r.error == Spi
  {
    ArduchipWriteReg(d, o, ARDUCHIP_FIFO, FIFO_START_MASK)
  }

  /**
   Requests a capture (Rust `start_capture`): clear, then start; when the clear
   is refused the start is never issued.
   */
  function StartCapture(d: Arducam, o: Oracle): (r: Ret<()>)
    ensures Performs(d, o, [WriteTransaction(0x84, 0x01), WriteTransaction(0x84, 0x02)], r)
    ensures r.Failed? ==> r.error == Spi
  {
    var f :- FlushFifo(d, o);
    var s :- StartFifo(f.cam, o);
    Done((), s.cam)
  }

  /** The capture-done test on a trigger-register value: only bit 3 matters. */
  function CaptureDone(v: byte): (done: bool)
    ensures done <==> (v / 8) % 2 == 1
  {
    v & CAP_DONE_MASK != 0
  }

  lemma CaptureDoneExamples()
    ensures !CaptureDone(0x00) && !CaptureDone(0x04) && !CaptureDone(0xF7)
    ensures CaptureDone(0x08) && CaptureDone(0xFF)
  {
  }

  /** Polls for capture completion (Rust `is_capture_done`): one read of register 0x41. */
  function IsCaptureDone(d: Arducam, o: Oracle): (r: Ret<bool>)
    ensures Performs(d, o, [SpiTransaction([Write([0x41]), Read(1)])], r)
    ensures r.Failed? ==> r.error == Spi
    ensures r.Done? ==> (r.value <==> (FirstByte(o(d.trace, ReadTransaction(0x41))) / 8) % 2 == 1)
  {
    var v :- ArduchipReadReg(d, o, ARDUCHIP_TRIG);
    Done(CaptureDone(v.value), v.cam)
  }

  /**
   Drains the FIFO into `out` (Rust `read_captured_image`): one burst
   transaction reading exactly `|out|` bytes, whatever length the chip reports,
   then a FIFO clear. When the burst is refused no clear is issued.
   */
  function ReadCapturedImage(d: Arducam, o: Oracle, out: seq<byte>): (r: Ret<seq<byte>>)
    ensures Performs(d, o,
      [SpiTransaction([Write([0x3C]), Read(|out|)]), SpiTransaction([Write([0x84]), Write([0x01])])], r)
    ensures r.Failed? ==> r.error == Spi
    ensures r.Done? ==> |r.value| == |out| && r.value == Fill(out, o(d.trace, BurstRead(|out|)))
  {
    var burst, clear := BurstRead(|out|), WriteTransaction(0x84, 0x01);
    var t :- Transact(d, o, burst);
    var f := FlushFifo(t.cam, o);
    PerformsThen(d, o, [burst], [clear], t, f);
    assert [burst] + [clear] == [burst, clear];
    if f.Failed? then f.PropagateFailure() else Done(Fill(out, t.value), f.cam)
  }

  /**
   The FIFO length the chip reports in its three length registers, as the
   driver's `u32` (Rust `get_fifo_length` after the reads): the low 7 bits of
   the high byte, then the middle and the low byte.
   */
  function FifoLength(lo: byte, mid: byte, hi: byte): (n: bv32)
    ensures n <= 0x7FFFFF
    ensures FifoLengthBytes(n) == (lo, mid, hi & 0x7F)
  {
    var l, m, h := lo as bv32, mid as bv32, (hi & 0x7F) as bv32;
    ((h << 16) | (m << 8) | l) & 0x7FFFFF
  }

  /** The three register bytes (low, middle, high) that report the length `n`. */
  function FifoLengthBytes(n: bv32): (b: (byte, byte, byte))
    requires n <= 0x7FFFFF
    ensures b.2 < 0x80
  {
    ((n & 0xFF) as byte, ((n >> 8) & 0xFF) as byte, (n >> 16) as byte)
  }

  /** Decoding the bytes that report `n` yields `n`, so every length up to 0x7FFFFF can be reported. */
  lemma FifoLengthRoundTrip(n: bv32)
    requires n <= 0x7FFFFF
    ensures var b := FifoLengthBytes(n); FifoLength(b.0, b.1, b.2) == n
  {
  }

  /** The decoded length is the high byte without its top bit, times 65536, plus the middle byte times 256, plus the low byte. */
  lemma FifoLengthValue(lo: byte, mid: byte, hi: byte)
    ensures FifoLength(lo, mid, hi) == (hi & 0x7F) as bv32 * 0x10000 + mid as bv32 * 0x100 + lo as bv32
  {
  }

  lemma FifoLengthExamples()
    ensures FifoLength(0xFF, 0xFF, 0xFF) == 0x7FFFFF
    ensures FifoLength(0x10, 0x00, 0x00) == 16
  {
  }

  /**
   Reads the reported FIFO length (Rust `get_fifo_length`): registers 0x42,
   0x43 and 0x44 in that order, stopping at the first refused read, and
   decodes the three bytes the chip answered.
   */
  function GetFifoLength(d: Arducam, o: Oracle): (r: Ret<bv32>)
    ensures Performs(d, o, [SpiTransaction([Write([0x42]), Read(1)]),
                           SpiTransaction([Write([0x43]), Read(1)]),
                           SpiTransaction([Write([0x44]), Read(1)])], r)
    ensures r.Failed? ==> r.error == Spi
    ensures r.Done? ==>
      var e1, e2, e3 := ReadTransaction(0x42), ReadTransaction(0x43), ReadTransaction(0x44);
      r.value == FifoLength(FirstByte(o(d.trace, e1)),
                            FirstByte(o(d.trace + [e1], e2)),
                            FirstByte(o(d.trace + [e1, e2], e3)))
  {
    var e1, e2, e3 := ReadTransaction(0x42), ReadTransaction(0x43), ReadTransaction(0x44);
    var b1 :- ArduchipReadReg(d, o, FIFO_SIZE1);
    assert b1.cam.trace == d.trace + [e1];
    var b2 :- ArduchipReadReg(b1.cam, o, FIFO_SIZE2);
    assert b2.cam.trace == d.trace + [e1, e2];
    var b3 :- ArduchipReadReg(b2.cam, o, FIFO_SIZE3);
    Done(FifoLength(b1.value, b2.value, b3.value), b3.cam)
  }
}
