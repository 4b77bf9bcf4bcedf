# Serial utilities of the Firmata serial feature, modelled in Dafny

This project models `utility/serialUtils.h`, the addressing and line-configuration layer of the
Firmata serial feature. The header has three total, side-effect-free functions, and each one is
a Dafny function here:

- `getSerialPinNumbers` is the port table. It maps a hardware port id to the board's
  `serial_pins` record (receive pin, transmit pin), or to the sentinel (0, 0).
  Its model is `SerialPins.SerialPinNumbers`.
- `getSerialPinType` is the pin-role resolver. It classifies a physical pin as one of the role
  codes `RES_RX1` .. `RES_TX3`, checked in a fixed first-match order, or as 0.
  Its model is `SerialPins.SerialPinType`.
- `getSerialConfigValue` is the line-configuration decoder. It pulls the data-bits, parity and
  stop-bits fields out of a 16-bit options word and maps the combination to one UART
  configuration token, with `SERIAL_8N1` as the default for anything unsupported.
  Its model is `LineConfig.SerialConfigValue`.

The header's preprocessor guards become an explicit `SerialDefs.Build` value:

- `PIN_SERIALn_RX`/`_TX` becomes one `Option<PinPair>` per port. `serial0` stands for
  `PIN_SERIAL_RX`.
- `ARDUINO_ARCH_SAM` becomes the flag `archSam`.

The platform tokens `SERIAL_5N1` .. `SERIAL_8S2` become the constructors of
`LineConfig.Cfg(dataBits, parity, stopBits)`. Two tokens are equal exactly when their three
components are equal.

The decoder's partner is `LineConfig.OptionsWord`. It packs a token into the documented field
layout, which is what a host does when it sends the configuration command. Three results tie
decoder and packer together:

- the round trip (`DecodesOptionsWord`);
- soundness (`ResultMatchesOptions`);
- an exact account of when the default comes back (`DefaultExactlyWhenUnsupported`).

Together they pin `getSerialConfigValue` down completely. The resolver's partner is the
reference function `SerialPins.RolePin`, which gives role code 2k to the receive pin of port k
and code 2k + 1 to its transmit pin. The resolver's contract says its result is the first role
in code order whose pin matches. `PinTypeInvertsPinNumbers` proves that the resolver is a left
inverse of the port table when the board's pins are distinct.

Files: `serial_defs.dfy` (module `SerialDefs`: constants, `uint8`, `PinPair`, `Build`),
`serial_pins.dfy` (module `SerialPins`), `line_config.dfy` (module `LineConfig`).

Where the specification of the repository and the code differ, the model follows the code:

- The specification describes port ids 0 to 3 as the hardware ports of the current build. In
  the code, port 0 has no case, so `HW_SERIAL0` always gives (0, 0), even on a board that
  defines `PIN_SERIAL_RX`.
- `getSerialPinNumbers` does not mask its argument with `SERIAL_PORT_ID_MASK`. An id such as
  0x11 gives (0, 0), not the pins of port 1. Masking is the caller's job, as the specification
  says. `SerialDefs.PortIdOf` models that masking.

## Model

| member | source | states |
|---|---|---|
| `SerialDefs.PortIdOf` | utility/serialUtils.h:18-32 | masking a command byte with `SERIAL_PORT_ID_MASK` gives an id of at most 0x0F, which lies in exactly one of the hardware band (0x00-0x07) and the software band (0x08-0x0F) |
| `SerialDefs.CommandOf` | utility/serialUtils.h:42-54 | masking a command byte with `SERIAL_MODE_MASK` keeps only its high nibble, so the result is a multiple of 0x10 |
| `SerialDefs.CommandByteSplits` | utility/serialUtils.h:18-54 | each of the seven command bytes, combined with any port id of either band, splits back into that command and that port id: commands and port ids share one byte without colliding |
| `SerialPins.SerialPinType` | utility/serialUtils.h:69-86 | the result is 0 or a role code in `RES_RX1`..`RES_TX3`; a nonzero result is a role whose defined pin equals `pin`; no role with a lower code matches `pin`; a result of 0 means no role matches at all |
| `SerialPins.SerialPinNumbers` | utility/serialUtils.h:91-122 | for `HW_SERIAL1`..`HW_SERIAL3` on a board that defines that port's pins, the result is those pins; for every other id it is (0, 0) |
| `SerialPins.UnknownPinIsZero` | utility/serialUtils.h:69-86 | a pin equal to none of the defined RX/TX pins of ports 1 to 3 is classified 0 |
| `SerialPins.Serial0PinNotMatched` | utility/serialUtils.h:70-72 | the port-0 pins (`PIN_SERIAL_RX`/`TX`) never affect the classification |
| `SerialPins.UnavailablePortIsSentinel` | utility/serialUtils.h:91-122 | `HW_SERIAL0`, every software-band id, every id above `HW_SERIAL3` and every port whose pins are not defined give (0, 0), whatever pins the board defines |
| `SerialPins.PinTypeFirstMatch` | utility/serialUtils.h:69-86 | even if pins are aliased, the receive pin of a defined port k resolves to a nonzero role no later than `RES_RXk`, and its transmit pin to one no later than `RES_TXk` |
| `SerialPins.PinTypeInvertsPinNumbers` | utility/serialUtils.h:69-116 | when the board's pins are pairwise distinct, resolving the receive (transmit) pin of a defined port k in 1..3 gives `RES_RXk` = 2k (`RES_TXk` = 2k + 1) |
| `LineConfig.DataBitsField` | utility/serialUtils.h:129 | the data-bits field is below 16 (it fits the `uint8_t` local, so no truncation happens) |
| `LineConfig.ParityField` | utility/serialUtils.h:130 | the parity field is below 8 |
| `LineConfig.StopBitsField` | utility/serialUtils.h:131 | the stop-bits field is below 4 |
| `LineConfig.OptionsWord` | utility/serialUtils.h:56-59 | the word packed for a token has no bits outside 0x01FF, and its three fields hold exactly the token's data bits, parity code and stop-bits code |
| `LineConfig.SerialConfigValue` | utility/serialUtils.h:127-270 | the decoder is total, and its result is always a token the target offers: a mark or space token only on SAM |
| `LineConfig.MasksPartitionOptions` | utility/serialUtils.h:57-59 | the three field masks are pairwise disjoint and together cover exactly 0x01FF |
| `LineConfig.FieldsDetermineOptions` | utility/serialUtils.h:129-131 | two words have equal fields exactly when they agree on bits 8..0 (both directions) |
| `LineConfig.IgnoresUnusedBits` | utility/serialUtils.h:127-131 | two options words that agree on bits 8..0 decode to the same token; in particular `x` and `x & 0x01FF` do |
| `LineConfig.UnsupportedStopBitsIsDefault` | utility/serialUtils.h:131-269 | stop-bits code 1 (1.5 bits) or 3 gives `SERIAL_8N1`, whatever the parity and data bits |
| `LineConfig.UnsupportedDataBitsIsDefault` | utility/serialUtils.h:136-269 | a data-bits field outside 5..8 gives `SERIAL_8N1`, whatever the parity and stop bits |
| `LineConfig.ReservedParityIsDefault` | utility/serialUtils.h:136-269 | parity codes 5..7 give `SERIAL_8N1` on every target, since no parity case covers them |
| `LineConfig.MarkSpaceNeedSam` | utility/serialUtils.h:212-269 | on a target that is not SAM, parity codes 3 (mark) and 4 (space) give `SERIAL_8N1`, because their cases are compiled only for `ARDUINO_ARCH_SAM` |
| `LineConfig.DecodesOptionsWord` | utility/serialUtils.h:136-266 | round trip: every token the target offers is decoded from any options word whose bits 8..0 are that token's packed word |
| `LineConfig.ResultMatchesOptions` | utility/serialUtils.h:127-270 | soundness: a result other than `SERIAL_8N1` comes only from an options word whose bits 8..0 are exactly that token's packed word |
| `LineConfig.DefaultExactlyWhenUnsupported` | utility/serialUtils.h:136-269 | the decoder returns `SERIAL_8N1` if and only if the word asks for 8N1 or for no token the target offers |
| `LineConfig.Example8N1` | utility/serialUtils.h:146-147 | data 8, parity 0, stop 0 (0x0100) gives `SERIAL_8N1` on every target |
| `LineConfig.Example6E2` | utility/serialUtils.h:174-181 | data 6, parity 1, stop 2 (0x00C6) gives `SERIAL_6E2` on every target |
| `LineConfig.ExampleMarkParity` | utility/serialUtils.h:213-225 | data 7, parity 3, stop 0 (0x00EC) gives `SERIAL_7M1` on SAM and `SERIAL_8N1` elsewhere |

## Left out

- The numeric values of the `SERIAL_xPy` tokens are left out. They come from the Arduino core
  headers, which are not part of this model. The tokens are distinct constructors of `Cfg`.
- The board's `PIN_SERIALn_RX`/`_TX` values are parameters of `Build` and are taken as 8-bit
  values. The header stores them into `uint8_t` fields, but it compares the macros themselves
  against the pin. A board macro above 255 would make these two disagree; no such value is
  modelled.
- `PIN_SERIALn_TX` is assumed to be defined whenever `PIN_SERIALn_RX` is. The header tests only
  the RX macro.
- Handling of `HW_SERIAL0` is left out. It is a TODO in the header, so it is modelled only as
  "gives the sentinel / is never matched".
- The command-byte and read-mode constants are modelled only as constants and masks. Their
  consumers (framing, UART reads and writes, command dispatch) are not part of this model.
- `MAX_SERIAL_PORTS` is modelled only as a constant; nothing in the header uses it.
- The header has no I/O, buffering or concurrency, so none is modelled. Calling any of the three
  functions twice with the same input gives the same output because they are Dafny functions;
  no separate lemma states this.
