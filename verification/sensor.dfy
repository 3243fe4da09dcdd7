/**
 The sensor-bus adapter: 8-bit register / 8-bit value access to the OV2640
 image sensor over I2C, and the writer that applies a register table.
 */
module Sensor {
  import opened Bus
  import opened Camera

  /** The sensor's 7-bit bus address, 0x30 (Rust `OV2640_ADDR`). */
  const OV2640_ADDR: byte := 0x60 >> 1

  /** One (register, value) pair of a sensor register table (Rust `[u8; 2]`). */
  datatype Setting = Setting(reg: byte, value: byte)

  /** An ordered register table, applied first to last. */
  type Table = seq<Setting>

  /** The sensor-bus write that stores `data` in sensor register `reg`. */
  function SensorWrite(reg: byte, data: byte): Event
  {
    I2cWrite(OV2640_ADDR, [reg, data])
  }

  /** The sensor-bus write-then-read that reads `len` bytes from sensor register `reg`. */
  function SensorRead(reg: byte, len: nat): Event
  {
    I2cWriteRead(OV2640_ADDR, [reg], len)
  }

  /** The writes that apply `t`: one per entry, in table order. */
  function TableWrites(t: Table): (plan: seq<Event>)
    ensures |plan| == |t|
    ensures forall i :: 0 <= i < |t| ==> plan[i] == I2cWrite(0x30, [t[i].reg, t[i].value])
  {
    if |t| == 0 then [] else [SensorWrite(t[0].reg, t[0].value)] + TableWrites(t[1..])
  }

  /** Writes `data` to sensor register `reg` (Rust `sensor_writereg8_8`); the `& 0xFF` masks change nothing. */
  function SensorWriteReg(d: Arducam, o: Oracle, reg: byte, data: byte): (r: Ret<()>)
    ensures Performs(d, o, [I2cWrite(0x30, [reg, data])], r)
    ensures r.Failed? ==> r.error == I2c
  {
    var t :- Transact(d, o, I2cWrite(OV2640_ADDR, [reg & 0xFF, data & 0xFF]));
    Done((), t.cam)
  }

  /**
   Reads sensor register `reg` into `out` (Rust `sensor_readreg8_8`): exactly
   `|out|` bytes are asked for, and the result is `out` after the device's bytes
   were stored into it.
   */
  function SensorReadReg(d: Arducam, o: Oracle, reg: byte, out: seq<byte>): (r: Ret<seq<byte>>)
    ensures Performs(d, o, [I2cWriteRead(0x30, [reg], |out|)], r)
    ensures r.Failed? ==> r.error == I2c
    ensures r.Done? ==> |r.value| == |out| && r.value == Fill(out, o(d.trace, SensorRead(reg, |out|)))
  {
    var t :- Transact(d, o, I2cWriteRead(OV2640_ADDR, [reg & 0xFF], |out|));
    Done(Fill(out, t.value), t.cam)
  }

  /**
   Applies table `t` (Rust `sensor_writeregs8_8`): one sensor write per entry in
   table order, stopping with `I2c` at the first refused write, so that nothing
   is issued for the entries after it.
   */
  function SensorWriteRegs(d: Arducam, o: Oracle, t: Table): (r: Ret<()>)
    ensures Performs(d, o, TableWrites(t), r)
    ensures r.Failed? ==> r.error == I2c
    decreases |t|
  {
    if |t| == 0 then Done((), d)
    else
      var first, rest := [SensorWrite(t[0].reg, t[0].value)], TableWrites(t[1..]);
      var w := SensorWriteReg(d, o, t[0].reg, t[0].value);
      if w.Failed? then
        PerformsAbort<(), ()>(d, o, first, rest, w);
        w.PropagateFailure()
      else
        var r := SensorWriteRegs(w.cam, o, t[1..]);
        PerformsThen(d, o, first, rest, w, r);
        r
  }

  /** On success the table writer issues exactly one write per entry; on failure, at most that many. */
  lemma TableWriterCount(d: Arducam, o: Oracle, t: Table)
    ensures var r := SensorWriteRegs(d, o, t);
      && (r.Done? ==> |r.cam.trace| == |d.trace| + |t|)
      && (r.Failed? ==> |d.trace| < |r.cam.trace| <= |d.trace| + |t|)
  {
    var r := SensorWriteRegs(d, o, t);
    PerformsStopsAtFirstRefusal(d, o, TableWrites(t), r);
  }
}
