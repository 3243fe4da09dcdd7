/**
 Two complete runs of the driver against scripted devices: the capture
 session of the crate's usage example, and an `init` whose sensor-bus reset
 is refused.
 */
module Scenarios {
  import opened Bus
  import opened Camera
  import opened Registers
  import opened Sensor
  import opened Capture
  import opened Identify
  import opened Config

  /** The ArduChip registers of the healthy module: the echoed self-test pattern, capture done, length 16. */
  function HealthyRegister(wire: byte): byte
  {
    if wire == 0x00 then 0x52
    else if wire == 0x41 then 0x08
    else if wire == 0x42 then 0x10
    else 0x00
  }

  /**
   The bytes the healthy module's FIFO holds, as many as a burst asks for: a
   JPEG start-of-image marker, then each byte's own index.
   */
  function CapturedImage(n: nat): (image: seq<byte>)
    ensures |image| == n
  {
    seq(n, i => if i == 0 then 0xFF else if i == 1 then 0xD8 else (i % 256) as byte)
  }

  /**
   A healthy module that has finished a 16-byte capture: it acknowledges every
   operation, answers every read with exactly as many bytes as were asked for,
   answers register reads from `HealthyRegister`, reports chip id 0x26 0x41,
   and drains `CapturedImage`.
   */
  function HealthyModule(h: seq<Event>, e: Event): Reply
  {
    match e
    case SpiTransaction(ops) =>
      if |ops| == 2 && ops[0] == Write([0x3C]) && ops[1].Read? then Ack(CapturedImage(ops[1].len))
      else if |ops| == 2 && ops[0].Write? && |ops[0].bytes| == 1 then Ack([HealthyRegister(ops[0].bytes[0])])
      else Ack([])
    case I2cWriteRead(_, bytes, _) =>
      if bytes == [0x0A] then Ack([0x26]) else if bytes == [0x0B] then Ack([0x41]) else Ack([])
    case _ => Ack([])
  }

  /** The healthy module refuses nothing. */
  lemma HealthyModuleAcks()
    ensures forall h, e :: HealthyModule(h, e).Ack?
  {
  }

  /** What the healthy module answers to the reads of the self-test and the FIFO length, whatever came before. */
  lemma HealthyAnswers(h: seq<Event>)
    ensures FirstByte(HealthyModule(h, ReadTransaction(0x00))) == 0x52
    ensures FirstByte(HealthyModule(h, SensorRead(0x0A, 1))) == 0x26
    ensures FirstByte(HealthyModule(h, SensorRead(0x0B, 1))) == 0x41
    ensures FirstByte(HealthyModule(h, ReadTransaction(0x42))) == 0x10
    ensures FirstByte(HealthyModule(h, ReadTransaction(0x43))) == 0x00
    ensures FirstByte(HealthyModule(h, ReadTransaction(0x44))) == 0x00
  {
  }

  /** On the healthy module `init` succeeds, from any state. */
  lemma HealthyInit(d: Arducam, tables: Tables)
    ensures Init(d, HealthyModule, tables).Done?
  {
    HealthyModuleAcks();
    PerformsWithoutRefusal(d, HealthyModule, ResetPlan() + JpegPlan(tables, d.resolution), Init(d, HealthyModule, tables));
  }

  /** On the healthy module the self-test passes. */
  lemma HealthySelfTest(d: Arducam)
    ensures var c := IsConnected(d, HealthyModule); c.Done? && c.value
  {
    var e1, e2, e3, e4 := WriteTransaction(0x80, 0x52), ReadTransaction(0x00), SensorWrite(0xFF, 0x01), SensorRead(0x0A, 1);
    HealthyAnswers(d.trace + [e1]);
    HealthyAnswers(d.trace + [e1, e2, e3]);
    HealthyAnswers(d.trace + [e1, e2, e3, e4]);
    HealthyModuleAcks();
    PerformsWithoutRefusal(d, HealthyModule, [WriteTransaction(0x80, 0x52), ReadTransaction(0x00),
      SensorWrite(0xFF, 0x01), SensorRead(0x0A, 1), SensorRead(0x0B, 1)], IsConnected(d, HealthyModule));
  }

  /** On the healthy module a capture request succeeds. */
  lemma HealthyStart(d: Arducam)
    ensures StartCapture(d, HealthyModule).Done?
  {
    HealthyModuleAcks();
    PerformsWithoutRefusal(d, HealthyModule, [WriteTransaction(0x84, 0x01), WriteTransaction(0x84, 0x02)],
      StartCapture(d, HealthyModule));
  }

  /** On the healthy module the first poll finds the capture done. */
  lemma HealthyPoll(d: Arducam)
    ensures var p := IsCaptureDone(d, HealthyModule); p.Done? && p.value
  {
    HealthyModuleAcks();
    PerformsWithoutRefusal(d, HealthyModule, [ReadTransaction(0x41)], IsCaptureDone(d, HealthyModule));
  }

  /** On the healthy module the reported length is 16. */
  lemma HealthyLength(d: Arducam)
    ensures var l := GetFifoLength(d, HealthyModule); l.Done? && l.value == 16
  {
    var e1, e2 := ReadTransaction(0x42), ReadTransaction(0x43);
    HealthyAnswers(d.trace);
    HealthyAnswers(d.trace + [e1]);
    HealthyAnswers(d.trace + [e1, e2]);
    HealthyModuleAcks();
    PerformsWithoutRefusal(d, HealthyModule, [ReadTransaction(0x42), ReadTransaction(0x43), ReadTransaction(0x44)],
      GetFifoLength(d, HealthyModule));
  }

  /**
   On the healthy module a 16-byte drain yields exactly the 16 bytes the FIFO
   sent, none of the buffer's own, and ends with the FIFO clear.
   */
  lemma HealthyDrain(d: Arducam)
    ensures var img := ReadCapturedImage(d, HealthyModule, seq(16, _ => 0));
      && img.Done?
      && img.value == CapturedImage(16)
      && img.cam.trace == d.trace + [BurstRead(16), WriteTransaction(0x84, 0x01)]
  {
    var zeros: seq<byte> := seq(16, _ => 0);
    HealthyModuleAcks();
    PerformsWithoutRefusal(d, HealthyModule, [BurstRead(16), WriteTransaction(0x84, 0x01)],
      ReadCapturedImage(d, HealthyModule, zeros));
    FillBytes(zeros, Ack(CapturedImage(16)));
  }

  /**
   The usage example end to end: `init`, the self-test, a capture request, a
   completed poll, a reported length of 16 and a 16-byte drain that reads
   exactly the 16 bytes the FIFO holds.
   */
  lemma CaptureSession(tables: Tables)
    ensures var i := Init(New(Res320x240, Jpeg), HealthyModule, tables);
      var c := IsConnected(i.cam, HealthyModule);
      var s := StartCapture(c.cam, HealthyModule);
      var p := IsCaptureDone(s.cam, HealthyModule);
      var l := GetFifoLength(p.cam, HealthyModule);
      var img := ReadCapturedImage(l.cam, HealthyModule, seq(16, _ => 0));
      i.Done? && c.Done? && c.value && s.Done? && p.Done? && p.value && l.Done? && l.value == 16
      && img.Done? && img.value == CapturedImage(16)
  {
    var i := Init(New(Res320x240, Jpeg), HealthyModule, tables);
    HealthyInit(New(Res320x240, Jpeg), tables);
    HealthySelfTest(i.cam);
    var c := IsConnected(i.cam, HealthyModule);
    HealthyStart(c.cam);
    var s := StartCapture(c.cam, HealthyModule);
    HealthyPoll(s.cam);
    var p := IsCaptureDone(s.cam, HealthyModule);
    HealthyLength(p.cam);
    HealthyDrain(GetFifoLength(p.cam, HealthyModule).cam);
  }

  /** A module whose sensor refuses the first operation after four: the bank select of the sensor reset. */
  function SensorResetRefused(h: seq<Event>, e: Event): Reply
  {
    if |h| == 4 then Nak else Ack([])
  }

  /** The reset half of `init` stops at the refused bank select, with `I2c`. */
  lemma ResetAbortsAtSensorReset()
    ensures var d0 := New(Res320x240, Jpeg);
      ResetChips(d0, SensorResetRefused)
        == Failed(I2c, d0.(trace := [WriteTransaction(0x87, 0x80), Delay(100),
                                     WriteTransaction(0x87, 0x00), Delay(100),
                                     SensorWrite(0xFF, 0x01)]))
  {
    var o := SensorResetRefused;
    var d0 := New(Res320x240, Jpeg);
    var plan := ResetPlan();
    var r := ResetChips(d0, o);
    PerformsStopsAtFirstRefusal(d0, o, plan, r);
    assert !Acked(d0.trace, o, plan, 4) by {
      assert |d0.trace + plan[..4]| == 4;
    }
    if r.Done? {
      assert false;
    }
    var n :| && 0 <= n < |plan|
             && r.cam.trace == d0.trace + plan[..n + 1]
             && !Acked(d0.trace, o, plan, n)
             && (forall k :: 0 <= k < n ==> Acked(d0.trace, o, plan, k))
             && r.error == ErrorFor(plan[n]);
    assert |d0.trace + plan[..n]| == n;
  }

  /**
   When the third bus operation of `init`, the sensor bank select, is refused,
   `init` fails with `I2c` after exactly the two ArduChip reset writes, their
   pauses and the refused write, and sends nothing more.
   */
  lemma InitAbortsAtSensorReset(tables: Tables)
    ensures var d0 := New(Res320x240, Jpeg);
      Init(d0, SensorResetRefused, tables)
        == Failed(I2c, d0.(trace := [WriteTransaction(0x87, 0x80), Delay(100),
                                     WriteTransaction(0x87, 0x00), Delay(100),
                                     SensorWrite(0xFF, 0x01)]))
  {
    ResetAbortsAtSensorReset();
  }
}
