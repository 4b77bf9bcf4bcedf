/**
 * Shared definitions of the serial feature: port identifiers, pin-role codes,
 * command bytes and masks, the `serial_pins` record and the build-time board
 * configuration that the preprocessor guards of the header select.
 */
module SerialDefs {

  /** An unsigned 8-bit value (`uint8_t`). */
  newtype uint8 = x: int | 0 <= x < 0x100

  datatype Option<+T> = None | Some(value: T)

  // Serial port ids: hardware ports in the low band, software ports from 0x08 up.
  const HW_SERIAL0: uint8 := 0x00
  const HW_SERIAL1: uint8 := 0x01
  const HW_SERIAL2: uint8 := 0x02
  const HW_SERIAL3: uint8 := 0x03

  const SW_SERIAL0: uint8 := 0x08
  const SW_SERIAL1: uint8 := 0x09
  const SW_SERIAL2: uint8 := 0x0A
  const SW_SERIAL3: uint8 := 0x0B

  const SERIAL_PORT_ID_MASK: uint8 := 0x0F
  const MAX_SERIAL_PORTS := 8

  // Pin-role codes reported for serial pins: RES_RXk = 2k, RES_TXk = 2k + 1.
  const RES_RX1: uint8 := 0x02
  const RES_TX1: uint8 := 0x03
  const RES_RX2: uint8 := 0x04
  const RES_TX2: uint8 := 0x05
  const RES_RX3: uint8 := 0x06
  const RES_TX3: uint8 := 0x07

  // Serial command bytes (high nibble of the first byte of a serial message).
  const SERIAL_CONFIG: uint8 := 0x10
  const SERIAL_WRITE: uint8 := 0x20
  const SERIAL_READ: uint8 := 0x30
  const SERIAL_REPLY: uint8 := 0x40
  const SERIAL_CLOSE: uint8 := 0x50
  const SERIAL_FLUSH: uint8 := 0x60
  const SERIAL_LISTEN: uint8 := 0x70

  // Serial read modes.
  const SERIAL_READ_CONTINUOUSLY: uint8 := 0x00
  const SERIAL_STOP_READING: uint8 := 0x01
  const SERIAL_MODE_MASK: uint8 := 0xF0

  // Serial options bit masks.
  const SERIAL_DATA_BITS_MASK: bv16 := 0x01E0
  const SERIAL_PARITY_MASK: bv16 := 0x001C
  const SERIAL_STOP_BITS_MASK: bv16 := 0x0003

  /** The `serial_pins` record: the receive and transmit pin of one port. */
  datatype PinPair = PinPair(rx: uint8, tx: uint8)

  /** The pair returned for a port that is not available on this build. */
  const NO_PINS := PinPair(0, 0)

  /**
   * The build-time configuration of a target board. `serialN` is `Some`
   * exactly when the board defines `PIN_SERIALn_RX` (and then also
   * `PIN_SERIALn_TX`); `serial0` stands for `PIN_SERIAL_RX`/`PIN_SERIAL_TX`;
   * `archSam` for `ARDUINO_ARCH_SAM`.
   */
  datatype Build = Build(
    serial0: Option<PinPair>,
    serial1: Option<PinPair>,
    serial2: Option<PinPair>,
    serial3: Option<PinPair>,
    archSam: bool)

  /** The compiled pins of hardware port `k` (0 to 3), as the board defines them. */
  function BoardPins(b: Build, k: nat): Option<PinPair>
  {
    if k == 0 then b.serial0
    else if k == 1 then b.serial1
    else if k == 2 then b.serial2
    else if k == 3 then b.serial3
    else None
  }

  /** A port id in the hardware band (0x00 to 0x07). */
  predicate IsHardwarePort(portId: uint8)
  {
    portId < 0x08
  }

  /** A port id in the software band (0x08 to 0x0F). */
  predicate IsSoftwarePort(portId: uint8)
  {
    0x08 <= portId <= 0x0F
  }

  /** The port id carried in the low nibble of a command byte. */
  function PortIdOf(command: bv8): (id: uint8)
    ensures id <= SERIAL_PORT_ID_MASK
    ensures IsHardwarePort(id) != IsSoftwarePort(id)
  {
    (command & (SERIAL_PORT_ID_MASK as bv8)) as uint8
  }

  /** The command carried in the high nibble of a command byte. */
  function CommandOf(command: bv8): (c: uint8)
    ensures c % 0x10 == 0
  {
    (command & (SERIAL_MODE_MASK as bv8)) as uint8
  }

  /**
   * Port ids and commands share one byte without colliding: every command
   * combined with every port id of either band can be split back into both.
   */
  lemma CommandByteSplits(command: uint8, portId: uint8)
    requires command in {SERIAL_CONFIG, SERIAL_WRITE, SERIAL_READ, SERIAL_REPLY,
                         SERIAL_CLOSE, SERIAL_FLUSH, SERIAL_LISTEN}
    requires IsHardwarePort(portId) || IsSoftwarePort(portId)
    ensures CommandOf(command as bv8 | portId as bv8) == command
    ensures PortIdOf(command as bv8 | portId as bv8) == portId
  {
  }
}
