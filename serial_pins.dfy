/**
 * The port table (port id to its receive/transmit pins) and the pin-role
 * resolver (physical pin to its RES_* role code) of the serial feature.
 * Both are total: an unknown port gives the pair (0, 0), an unknown pin the
 * code 0.
 */
module SerialPins {
  import opened SerialDefs

  /** Whether `role` is one of the six codes RES_RX1 .. RES_TX3. */
  predicate IsRole(role: uint8)
  {
    RES_RX1 <= role <= RES_TX3
  }

  /**
   * The pin that plays role `role` on build `b`: RES_RXk and RES_TXk (codes
   * 2k and 2k + 1) are the receive and transmit pin of hardware port k, and
   * only ports 1 to 3 are looked up by the resolver.
   */
  function RolePin(b: Build, role: uint8): Option<uint8>
  {
    if IsRole(role) then
      match BoardPins(b, role as nat / 2)
      case None => None
      case Some(p) => Some(if role % 2 == 0 then p.rx else p.tx)
    else None
  }

  /**
   * getSerialPinType: the role code of `pin`, tried in the order RX1, TX1,
   * RX2, TX2, RX3, TX3 over the ports the build defines; 0 when no role matches.
   */
  function SerialPinType(b: Build, pin: uint8): (r: uint8)
    ensures r == 0 || IsRole(r)
    ensures r != 0 ==> RolePin(b, r) == Some(pin)
    ensures forall q: uint8 :: IsRole(q) && (r == 0 || q < r) ==> RolePin(b, q) != Some(pin)
  {
    if b.serial1.Some? && pin == b.serial1.value.rx then RES_RX1
    else if b.serial1.Some? && pin == b.serial1.value.tx then RES_TX1
    else if b.serial2.Some? && pin == b.serial2.value.rx then RES_RX2
    else if b.serial2.Some? && pin == b.serial2.value.tx then RES_TX2
    else if b.serial3.Some? && pin == b.serial3.value.rx then RES_RX3
    else if b.serial3.Some? && pin == b.serial3.value.tx then RES_TX3
    else 0
  }

  /**
   * getSerialPinNumbers: the pins of hardware port `portId` if the build
   * defines its pins and the port is one of HW_SERIAL1 .. HW_SERIAL3, and
   * the pair (0, 0) for every other id.
   */
  function SerialPinNumbers(b: Build, portId: uint8): (pins: PinPair)
    ensures (HW_SERIAL1 <= portId <= HW_SERIAL3 && BoardPins(b, portId as nat).Some?) ==>
              pins == BoardPins(b, portId as nat).value
    ensures !(HW_SERIAL1 <= portId <= HW_SERIAL3 && BoardPins(b, portId as nat).Some?) ==>
              pins == NO_PINS
  {
    // HW_SERIAL0 has no case: its selection is still a TODO.
    if portId == HW_SERIAL1 && b.serial1.Some? then b.serial1.value
    else if portId == HW_SERIAL2 && b.serial2.Some? then b.serial2.value
    else if portId == HW_SERIAL3 && b.serial3.Some? then b.serial3.value
    else NO_PINS
  }

  /** Whether the pins the build defines for ports 1 to 3 are pairwise distinct. */
  predicate DistinctPins(b: Build)
  {
    forall q1: uint8, q2: uint8 ::
      (IsRole(q1) && IsRole(q2) && q1 != q2 && RolePin(b, q1).Some? && RolePin(b, q2).Some?) ==>
        RolePin(b, q1) != RolePin(b, q2)
  }

  /** A pin that none of the defined RX/TX pins equals is classified 0. */
  lemma UnknownPinIsZero(b: Build, pin: uint8)
    requires forall k :: 1 <= k <= 3 && BoardPins(b, k).Some? ==>
               BoardPins(b, k).value.rx != pin && BoardPins(b, k).value.tx != pin
    ensures SerialPinType(b, pin) == 0
  {
  }

  /** The pins of port 0 (PIN_SERIAL_RX/TX) are never matched. */
  lemma Serial0PinNotMatched(b: Build, pin: uint8)
    ensures SerialPinType(b, pin) == SerialPinType(b.(serial0 := None), pin)
  {
  }

  /**
   * Port 0, every id of the software band and every other id outside
   * HW_SERIAL1 .. HW_SERIAL3 give the sentinel pair, whichever pins the
   * board defines; so does a hardware port whose pins are not defined.
   */
  lemma UnavailablePortIsSentinel(b: Build, portId: uint8)
    requires portId == HW_SERIAL0 || IsSoftwarePort(portId) || portId > HW_SERIAL3
             || BoardPins(b, portId as nat).None?
    ensures SerialPinNumbers(b, portId) == NO_PINS
  {
  }

  /**
   * Even with aliased pins, the receive pin of a defined port k resolves to a
   * role no later than RES_RXk, and its transmit pin to one no later than RES_TXk.
   */
  lemma PinTypeFirstMatch(b: Build, k: uint8)
    requires HW_SERIAL1 <= k <= HW_SERIAL3 && BoardPins(b, k as nat).Some?
    ensures var pins := SerialPinNumbers(b, k);
      && 0 < SerialPinType(b, pins.rx) <= 2 * k
      && 0 < SerialPinType(b, pins.tx) <= 2 * k + 1
  {
    var pins := SerialPinNumbers(b, k);
    assert RolePin(b, 2 * k) == Some(pins.rx);
    assert RolePin(b, 2 * k + 1) == Some(pins.tx);
  }

  /**
   * On a board whose serial pins are pairwise distinct, the resolver is a left
   * inverse of the port table on the defined hardware ports: the receive pin
   * of port k resolves to RES_RXk = 2k and its transmit pin to RES_TXk = 2k + 1.
   */
  lemma PinTypeInvertsPinNumbers(b: Build, k: uint8)
    requires DistinctPins(b)
    requires HW_SERIAL1 <= k <= HW_SERIAL3 && BoardPins(b, k as nat).Some?
    ensures SerialPinType(b, SerialPinNumbers(b, k).rx) == 2 * k
    ensures SerialPinType(b, SerialPinNumbers(b, k).tx) == 2 * k + 1
  {
    var pins := SerialPinNumbers(b, k);
    assert RolePin(b, 2 * k) == Some(pins.rx);
    assert RolePin(b, 2 * k + 1) == Some(pins.tx);
  }
}
