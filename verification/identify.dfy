/**
 Identification and diagnostics: reading the OV2640 chip id over the sensor
 bus and the connectivity self-test that combines both buses.
 */
module Identify {
  import opened Bus
  import opened Camera
  import opened Registers
  import opened Sensor

  /** Scratch register of the ArduChip used for the self-test (Rust `ARDUCHIP_TEST1`). */
  const ARDUCHIP_TEST1: byte := 0x00
  /** Sensor registers holding the chip id (Rust `OV2640_CHIPID_HIGH`, `OV2640_CHIPID_LOW`). */
  const OV2640_CHIPID_HIGH: byte := 0x0A
  const OV2640_CHIPID_LOW: byte := 0x0B
  /** The pattern written to and read back from the scratch register. */
  const TEST_PATTERN: byte := 0x52
  /** The two chip ids the self-test accepts. */
  const VALID_OV2640_CHIPID1: seq<byte> := [0x26, 0x41]
  const VALID_OV2640_CHIPID2: seq<byte> := [0x26, 0x42]

  /**
   Reads the sensor's two-byte chip id (Rust `get_sensor_chipid`): select
   register bank 1, then read register 0x0A and register 0x0B, one byte each,
   into a zeroed two-byte buffer.
   */
  function GetSensorChipId(d: Arducam, o: Oracle): (r: Ret<seq<byte>>)
    ensures Performs(d, o, [I2cWrite(0x30, [0xFF, 0x01]),
                           I2cWriteRead(0x30, [0x0A], 1),
                           I2cWriteRead(0x30, [0x0B], 1)], r)
    ensures r.Failed? ==> r.error == I2c
    ensures r.Done? ==>
      var e1, e2, e3 := SensorWrite(0xFF, 0x01), SensorRead(0x0A, 1), SensorRead(0x0B, 1);
      r.value == [FirstByte(o(d.trace + [e1], e2)), FirstByte(o(d.trace + [e1, e2], e3))]
  {
    var e1, e2, e3 := SensorWrite(0xFF, 0x01), SensorRead(0x0A, 1), SensorRead(0x0B, 1);
    var bank :- SensorWriteReg(d, o, 0xFF, 0x01);
    assert bank.cam.trace == d.trace + [e1];
    var high :- SensorReadReg(bank.cam, o, OV2640_CHIPID_HIGH, [0]);
    assert high.value == [FirstByte(o(d.trace + [e1], e2))];
    assert high.cam.trace == d.trace + [e1, e2];
    var low :- SensorReadReg(high.cam, o, OV2640_CHIPID_LOW, [0]);
    assert low.value == [FirstByte(o(d.trace + [e1, e2], e3))];
    Done(high.value + low.value, low.cam)
  }

  /** The verdict the self-test evidently means: the read-back matches and the chip id is one of the two. */
  function IntendedVerdict(readback: byte, chipid: seq<byte>): bool
  {
    readback == TEST_PATTERN && (chipid == VALID_OV2640_CHIPID1 || chipid == VALID_OV2640_CHIPID2)
  }

  /**
   The self-test verdict exactly as the driver groups it, following Rust's
   precedence of `&&` over `||`: a matching read-back with the first chip id,
   or the second chip id whatever was read back. It agrees with the intended
   verdict except when the read-back fails and the chip id is the second one:
   then the driver reports a connection the register bus did not confirm.
   */
  function ConnectedVerdict(readback: byte, chipid: seq<byte>): (connected: bool)
    ensures connected <==>
      IntendedVerdict(readback, chipid) || (readback != 0x52 && chipid == [0x26, 0x42])
  {
    (readback == TEST_PATTERN && chipid == VALID_OV2640_CHIPID1) || chipid == VALID_OV2640_CHIPID2
  }

  /** The two groupings do differ: a failed read-back with the second chip id passes the driver's test. */
  lemma ConnectedVerdictGrouping()
    ensures ConnectedVerdict(0x00, [0x26, 0x42]) && !IntendedVerdict(0x00, [0x26, 0x42])
  {
  }

  /**
   The connectivity self-test (Rust `is_connected`): write 0x52 to scratch
   register 0x00 (sent as 0x80), read it back, read the chip id, and combine
   them with the driver's grouping. Any refused operation aborts the rest.
   */
  function IsConnected(d: Arducam, o: Oracle): (r: Ret<bool>)
    ensures Performs(d, o, [SpiTransaction([Write([0x80]), Write([0x52])]),
                           SpiTransaction([Write([0x00]), Read(1)]),
                           I2cWrite(0x30, [0xFF, 0x01]),
                           I2cWriteRead(0x30, [0x0A], 1),
                           I2cWriteRead(0x30, [0x0B], 1)], r)
    ensures r.Done? ==>
      var e1, e2, e3, e4, e5 := WriteTransaction(0x80, 0x52), ReadTransaction(0x00),
        SensorWrite(0xFF, 0x01), SensorRead(0x0A, 1), SensorRead(0x0B, 1);
      var readback := FirstByte(o(d.trace + [e1], e2));
      var chipid := [FirstByte(o(d.trace + [e1, e2, e3], e4)), FirstByte(o(d.trace + [e1, e2, e3, e4], e5))];
      r.value <==> (readback == 0x52 && chipid == [0x26, 0x41]) || chipid == [0x26, 0x42]
  {
    var e1, e2, e3, e4, e5 := WriteTransaction(0x80, 0x52), ReadTransaction(0x00),
      SensorWrite(0xFF, 0x01), SensorRead(0x0A, 1), SensorRead(0x0B, 1);
    var w :- ArduchipWriteReg(d, o, ARDUCHIP_TEST1, TEST_PATTERN);
    var result :- ArduchipReadReg(w.cam, o, ARDUCHIP_TEST1);
    PerformsThen(d, o, [e1], [e2], w, result);
    assert [e1] + [e2] == [e1, e2];
    assert result.cam.trace == d.trace + [e1, e2];
    var chipid := GetSensorChipId(result.cam, o);
    PerformsThen(d, o, [e1, e2], [e3, e4, e5], result, chipid);
    assert [e1, e2] + [e3, e4, e5] == [e1, e2, e3, e4, e5];
    if chipid.Failed? then chipid.PropagateFailure()
    else
      assert result.cam.trace + [e3] == d.trace + [e1, e2, e3];
      assert result.cam.trace + [e3, e4] == d.trace + [e1, e2, e3, e4];
      Done(ConnectedVerdict(result.value, chipid.value), chipid.cam)
  }
}
