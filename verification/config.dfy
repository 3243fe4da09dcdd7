/**
 Sensor configuration: which register table each resolution selects, and the
 power-on sequence that resets both chips and puts the sensor into JPEG mode.

 The tables themselves live in the driver's `ov2640_registers` module, which
 is not part of this model: `Tables` maps each table name to an arbitrary
 contents, and every property holds whatever the tables contain.
 */
module Config {
  import opened Bus
  import opened Camera
  import opened Registers
  import opened Sensor

  /** The register tables the driver applies (Rust `OV2640_*` statics). */
  datatype TableId =
    | Ov2640JpegInit | Ov2640Yuv422 | Ov2640Jpeg
    | Ov2640Jpeg160x120 | Ov2640Jpeg176x144 | Ov2640Jpeg320x240 | Ov2640Jpeg352x288
    | Ov2640Jpeg640x480 | Ov2640Jpeg800x600 | Ov2640Jpeg1024x768
    | Ov2640Jpeg1280x1024 | Ov2640Jpeg1600x1200

  /** The contents of every table. */
  type Tables = TableId -> Table

  /** The resolution a size table configures; the three setup tables configure none. */
  function TableResolution(t: TableId): Option<Resolution>
  {
    match t
    case Ov2640JpegInit => None
    case Ov2640Yuv422 => None
    case Ov2640Jpeg => None
    case Ov2640Jpeg160x120 => Some(Res160x120)
    case Ov2640Jpeg176x144 => Some(Res176x144)
    case Ov2640Jpeg320x240 => Some(Res320x240)
    case Ov2640Jpeg352x288 => Some(Res352x288)
    case Ov2640Jpeg640x480 => Some(Res640x480)
    case Ov2640Jpeg800x600 => Some(Res800x600)
    case Ov2640Jpeg1024x768 => Some(Res1024x768)
    case Ov2640Jpeg1280x1024 => Some(Res1280x1024)
    case Ov2640Jpeg1600x1200 => Some(Res1600x1200)
  }

  /** The table `send_resolution` applies for `res`: the JPEG size table of that resolution. */
  function ResolutionTable(res: Resolution): (t: TableId)
    ensures TableResolution(t) == Some(res)
  {
    match res
    case Res160x120 => Ov2640Jpeg160x120
    case Res1024x768 => Ov2640Jpeg1024x768
    case Res1280x1024 => Ov2640Jpeg1280x1024
    case Res1600x1200 => Ov2640Jpeg1600x1200
    case Res176x144 => Ov2640Jpeg176x144
    case Res320x240 => Ov2640Jpeg320x240
    case Res352x288 => Ov2640Jpeg352x288
    case Res640x480 => Ov2640Jpeg640x480
    case Res800x600 => Ov2640Jpeg800x600
  }

  /**
   The dispatch is a bijection between the nine resolutions and the nine size
   tables: distinct resolutions select distinct tables, every size table is
   selected by exactly the resolution it configures, and no resolution selects
   one of the three setup tables.
   */
  lemma ResolutionTableBijective(a: Resolution, b: Resolution, t: TableId)
    ensures ResolutionTable(a) == ResolutionTable(b) <==> a == b
    ensures TableResolution(t) == Some(a) <==> ResolutionTable(a) == t
    ensures ResolutionTable(a) !in {Ov2640JpegInit, Ov2640Yuv422, Ov2640Jpeg}
  {
  }

  /** Applies the size table of the camera's stored resolution (Rust `send_resolution`). */
  function SendResolution(d: Arducam, o: Oracle, tables: Tables): (r: Ret<()>)
    ensures Performs(d, o, TableWrites(tables(ResolutionTable(d.resolution))), r)
    ensures r.Failed? ==> r.error == I2c
  {
    SensorWriteRegs(d, o, tables(ResolutionTable(d.resolution)))
  }

  /**
   Changes the resolution (Rust `set_resolution`): the new resolution is stored
   before anything is sent, so it is kept even when the table write fails, and
   then exactly the size table of the new resolution is applied.
   */
  function SetResolution(d: Arducam, o: Oracle, tables: Tables, res: Resolution): (r: Ret<()>)
    ensures r.cam.resolution == res && r.cam.format == d.format
    ensures Performs(d.(resolution := res), o, TableWrites(tables(ResolutionTable(res))), r)
    ensures r.Failed? ==> r.error == I2c
  {
    SendResolution(d.(resolution := res), o, tables)
  }

  /**
   The reset half of `init`: reset the ArduChip through register 0x07 (0x80,
   then 0x00), select sensor register bank 1 and soft-reset the sensor through
   register 0x12, with a 100 ms pause after each step.
   */
  function ResetPlan(): seq<Event>
  {
    [SpiTransaction([Write([0x87]), Write([0x80])]), Delay(100),
     SpiTransaction([Write([0x87]), Write([0x00])]), Delay(100),
     I2cWrite(0x30, [0xFF, 0x01]), Delay(100),
     I2cWrite(0x30, [0x12, 0x80]), Delay(100)]
  }

  /**
   The JPEG half of `init`: the three setup tables in order, register bank 1,
   register 0x15 cleared, then the size table of the stored resolution.
   */
  function JpegPlan(tables: Tables, res: Resolution): seq<Event>
  {
    TableWrites(tables(Ov2640JpegInit)) + TableWrites(tables(Ov2640Yuv422)) + TableWrites(tables(Ov2640Jpeg))
    + [I2cWrite(0x30, [0xFF, 0x01])] + [I2cWrite(0x30, [0x15, 0x00])]
    + TableWrites(tables(ResolutionTable(res)))
  }

  /** Pulses the ArduChip reset bit of register 0x07 (the first four steps of `init`). */
  function ResetArduchip(d: Arducam, o: Oracle): (r: Ret<()>)
    ensures Performs(d, o, [WriteTransaction(0x87, 0x80), Delay(100), WriteTransaction(0x87, 0x00), Delay(100)], r)
    ensures r.Failed? ==> r.error == Spi
  {
    var raise :- ArduchipWriteReg(d, o, 0x07, 0x80);
    var wait1 := Pause(raise.cam, o, 100);
    var clear :- ArduchipWriteReg(wait1.cam, o, 0x07, 0x00);
    Pause(clear.cam, o, 100)
  }

  /** Selects sensor register bank 1 and soft-resets the sensor through register 0x12 (the next four steps of `init`). */
  function ResetSensor(d: Arducam, o: Oracle): (r: Ret<()>)
    ensures Performs(d, o, [SensorWrite(0xFF, 0x01), Delay(100), SensorWrite(0x12, 0x80), Delay(100)], r)
    ensures r.Failed? ==> r.error == I2c
  {
    var bank :- SensorWriteReg(d, o, 0xFF, 0x01);
    var wait1 := Pause(bank.cam, o, 100);
    var reset :- SensorWriteReg(wait1.cam, o, 0x12, 0x80);
    Pause(reset.cam, o, 100)
  }

  /** Resets both chips (the reset half of `init`); a refused step aborts the rest. */
  function ResetChips(d: Arducam, o: Oracle): (r: Ret<()>)
    ensures Performs(d, o, ResetPlan(), r)
  {
    var chip := [WriteTransaction(0x87, 0x80), Delay(100), WriteTransaction(0x87, 0x00), Delay(100)];
    var sensor := [SensorWrite(0xFF, 0x01), Delay(100), SensorWrite(0x12, 0x80), Delay(100)];
    var arduchip := ResetArduchip(d, o);
    assert chip + sensor == ResetPlan();
    Then(d, o, chip, arduchip, sensor, ResetSensor(arduchip.cam, o))
  }

  /** Puts the sensor into JPEG mode at the stored resolution (the JPEG half of `init`); a refused write aborts the rest. */
  function ConfigureJpeg(d: Arducam, o: Oracle, tables: Tables): (r: Ret<()>)
    ensures Performs(d, o, JpegPlan(tables, d.resolution), r)
    ensures r.Failed? ==> r.error == I2c
  {
    var init, yuv, jpeg := TableWrites(tables(Ov2640JpegInit)), TableWrites(tables(Ov2640Yuv422)), TableWrites(tables(Ov2640Jpeg));
    var bank, mode := [SensorWrite(0xFF, 0x01)], [SensorWrite(0x15, 0x00)];
    var size := TableWrites(tables(ResolutionTable(d.resolution)));
    var r1 := SensorWriteRegs(d, o, tables(Ov2640JpegInit));
    var r2 := Then(d, o, init, r1, yuv, SensorWriteRegs(r1.cam, o, tables(Ov2640Yuv422)));
    var r3 := Then(d, o, init + yuv, r2, jpeg, SensorWriteRegs(r2.cam, o, tables(Ov2640Jpeg)));
    var r4 := Then(d, o, init + yuv + jpeg, r3, bank, SensorWriteReg(r3.cam, o, 0xFF, 0x01));
    var r5 := Then(d, o, init + yuv + jpeg + bank, r4, mode, SensorWriteReg(r4.cam, o, 0x15, 0x00));
    Then(d, o, init + yuv + jpeg + bank + mode, r5, size, SendResolution(r5.cam, o, tables))
  }

  /**
   Brings the camera to its reset state (Rust `init`): the reset sequence, then
   the JPEG configuration at the stored resolution. The first refused operation
   aborts every later step, and the call reports the bus of that operation.
   */
  function Init(d: Arducam, o: Oracle, tables: Tables): (r: Ret<()>)
    ensures Performs(d, o, ResetPlan() + JpegPlan(tables, d.resolution), r)
    ensures r.cam.resolution == d.resolution && r.cam.format == d.format
  {
    var reset := ResetChips(d, o);
    Then(d, o, ResetPlan(), reset, JpegPlan(tables, d.resolution), ConfigureJpeg(reset.cam, o, tables))
  }

  /** Every operation of the JPEG half is a sensor-bus write. */
  lemma JpegPlanOnSensorBus(tables: Tables, res: Resolution)
    ensures forall i :: 0 <= i < |JpegPlan(tables, res)| ==> JpegPlan(tables, res)[i].I2cWrite?
  {
    forall t: Table, i | 0 <= i < |TableWrites(t)|
      ensures TableWrites(t)[i].I2cWrite?
    {
    }
  }

  /** Within the `init` plan, only the first and third operations are on the register bus. */
  lemma InitPlanBuses(tables: Tables, res: Resolution, n: nat)
    requires n < |ResetPlan() + JpegPlan(tables, res)|
    ensures ErrorFor((ResetPlan() + JpegPlan(tables, res))[n]) == Spi <==> n == 0 || n == 2
  {
    var plan := ResetPlan() + JpegPlan(tables, res);
    if n < 8 {
      assert plan[n] == ResetPlan()[n];
    } else {
      JpegPlanOnSensorBus(tables, res);
      assert plan[n] == JpegPlan(tables, res)[n - 8];
    }
  }

  /**
   A failed `init` reports `Spi` exactly when one of the two ArduChip reset
   writes, the first and third operations, was refused, and `I2c` for every
   other refusal.
   */
  lemma InitReportsFailingBus(d: Arducam, o: Oracle, tables: Tables)
    ensures var r := Init(d, o, tables);
      r.Failed? ==> (r.error == Spi <==> |r.cam.trace| == |d.trace| + 1 || |r.cam.trace| == |d.trace| + 3)
  {
    var r := Init(d, o, tables);
    var plan := ResetPlan() + JpegPlan(tables, d.resolution);
    if r.Failed? {
      PerformsStopsAtFirstRefusal(d, o, plan, r);
      var n :| 0 <= n < |plan| && r.cam.trace == d.trace + plan[..n + 1] && r.error == ErrorFor(plan[n]);
      InitPlanBuses(tables, d.resolution, n);
    }
  }
}
