/**
 The register-bus adapter: single-register reads and writes to the ArduChip
 FIFO/control chip over SPI.

 A register address is 7 bits wide on the wire; the top bit of the address
 byte says whether the transaction writes (set) or reads (clear). A write is
 one transaction of two one-byte writes (address, then data); a read is one
 transaction of a one-byte write (address) and a one-byte read.
 */
module Registers {
  import opened Bus
  import opened Camera

  /** Set on the address byte of a register write (Rust `WRITE_FLAG`). */
  const WRITE_FLAG: byte := 0x80

  /** The register-bus transaction that writes `data` to the wire address `wire`. */
  function WriteTransaction(wire: byte, data: byte): Event
  {
    SpiTransaction([Write([wire]), Write([data])])
  }

  /** The register-bus transaction that reads one byte from the wire address `wire`. */
  function ReadTransaction(wire: byte): Event
  {
    SpiTransaction([Write([wire]), Read(1)])
  }

  /** The byte sent to write the register at `addr`: its low 7 bits with the write flag set. */
  function WriteFrame(addr: byte): (wire: byte)
    ensures wire == addr % 0x80 + 0x80
  {
    addr | WRITE_FLAG
  }

  /** The byte sent to read the register at `addr`: its low 7 bits with the write flag clear. */
  function ReadFrame(addr: byte): (wire: byte)
    ensures wire == addr % 0x80
  {
    addr & 0x7F
  }

  /** Writing and reading a logical address reach the same 7-bit register, whatever the address's own top bit. */
  lemma FramesAddressSameRegister(addr: byte)
    ensures ReadFrame(WriteFrame(addr)) == ReadFrame(addr)
    ensures WriteFrame(ReadFrame(addr)) == WriteFrame(addr)
    ensures WriteFrame(addr) != ReadFrame(addr)
    ensures WriteFrame(0x04) == 0x84 && ReadFrame(0x84) == 0x04
  {
  }

  /** Raw register write with the address byte sent as given (Rust `arduchip_write`). */
  function ArduchipWrite(d: Arducam, o: Oracle, wire: byte, data: byte): (r: Ret<()>)
    ensures Performs(d, o, [SpiTransaction([Write([wire]), Write([data])])], r)
    ensures r.Failed? ==> r.error == Spi
  {
    var t :- Transact(d, o, WriteTransaction(wire, data));
    Done((), t.cam)
  }

  /** Raw register read with the address byte sent as given (Rust `arduchip_read`). */
  function ArduchipRead(d: Arducam, o: Oracle, wire: byte): (r: Ret<byte>)
    ensures Performs(d, o, [SpiTransaction([Write([wire]), Read(1)])], r)
    ensures r.Failed? ==> r.error == Spi
    ensures r.Done? ==> r.value == FirstByte(o(d.trace, ReadTransaction(wire)))
  {
    var t :- Transact(d, o, ReadTransaction(wire));
    var buf := Fill([0], t.value);
    Done(buf[0], t.cam)
  }

  /** Writes `data` to the register at `addr` (Rust `arduchip_write_reg`). */
  function ArduchipWriteReg(d: Arducam, o: Oracle, addr: byte, data: byte): (r: Ret<()>)
    ensures Performs(d, o, [WriteTransaction(WriteFrame(addr), data)], r)
    ensures r.Failed? ==> r.error == Spi
  {
    ArduchipWrite(d, o, WriteFrame(addr), data)
  }

  /** Reads the register at `addr` (Rust `arduchip_read_reg`). */
  function ArduchipReadReg(d: Arducam, o: Oracle, addr: byte): (r: Ret<byte>)
    ensures Performs(d, o, [ReadTransaction(ReadFrame(addr))], r)
    ensures r.Failed? ==> r.error == Spi
    ensures r.Done? ==> r.value == FirstByte(o(d.trace, ReadTransaction(ReadFrame(addr))))
  {
    ArduchipRead(d, o, ReadFrame(addr))
  }
}
