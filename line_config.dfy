/**
 * The line-configuration decoder of the serial feature: a 16-bit options
 * word carries the data bits in bits 8..5, the parity in bits 4..2 and the
 * stop bits in bits 1..0; the decoder maps it to the UART configuration
 * token of the platform, and to SERIAL_8N1 for every combination the
 * platform has no token for.
 */
module LineConfig {
  import opened SerialDefs

  /** Parity of a line: mark and space exist only on SAM boards. */
  datatype Parity = NoParity | Even | Odd | Mark | Space

  /** Stop bits of a line: the platforms offer one or two, never one and a half. */
  datatype StopBits = OneStop | TwoStop

  type DataBits = d: nat | 5 <= d <= 8 witness 8

  /**
   * A platform configuration token SERIAL_<d><p><s>: one distinct token per
   * data-bits, parity and stop-bits combination.
   */
  datatype Cfg = Cfg(dataBits: DataBits, parity: Parity, stopBits: StopBits)

  /** The default token, also the one for 8 data bits, no parity, 1 stop bit. */
  const SERIAL_8N1 := Cfg(8, NoParity, OneStop)

  /** The bits of the options word that the three fields occupy. */
  const SERIAL_OPTIONS_MASK: bv16 := 0x01FF

  /** Whether the target offers token `c` (mark and space parity only on SAM). */
  predicate Available(archSam: bool, c: Cfg)
  {
    archSam || c.parity in {NoParity, Even, Odd}
  }

  /** The parity code of the options word for `p`. */
  function ParityCode(p: Parity): (code: nat)
    ensures code <= 4
  {
    match p
    case NoParity => 0
    case Even => 1
    case Odd => 2
    case Mark => 3
    case Space => 4
  }

  /** The stop-bits code of the options word for `s` (1 would mean 1.5 bits). */
  function StopCode(s: StopBits): (code: nat)
    ensures code == 0 || code == 2
  {
    match s
    case OneStop => 0
    case TwoStop => 2
  }

  /** The data-bits field, bits 8..5 of the options word. */
  function DataBitsField(options: bv16): (d: nat)
    ensures d < 16
  {
    ((options & SERIAL_DATA_BITS_MASK) >> 5) as nat
  }

  /** The parity field, bits 4..2 of the options word. */
  function ParityField(options: bv16): (p: nat)
    ensures p < 8
  {
    ((options & SERIAL_PARITY_MASK) >> 2) as nat
  }

  /** The stop-bits field, bits 1..0 of the options word. */
  function StopBitsField(options: bv16): (s: nat)
    ensures s < 4
  {
    (options & SERIAL_STOP_BITS_MASK) as nat
  }

  /**
   * The options word that asks for token `c`, packed as the host packs it;
   * bits outside the three fields are zero.
   */
  function OptionsWord(c: Cfg): (w: bv16)
    ensures w & !SERIAL_OPTIONS_MASK == 0
    ensures DataBitsField(w) == c.dataBits
    ensures ParityField(w) == ParityCode(c.parity)
    ensures StopBitsField(w) == StopCode(c.stopBits)
  {
    var d := c.dataBits as bv16;
    var p := ParityCode(c.parity) as bv16;
    var s := StopCode(c.stopBits) as bv16;
    assert d < 16 && p < 8 && s < 4;
    (d << 5) | (p << 2) | s
  }

  /** The innermost `switch (dataBits)`: data bits 5 to 8 have a token, any other falls to the default. */
  function WithDataBits(dataBits: nat, parity: Parity, stopBits: StopBits): Cfg
  {
    if 5 <= dataBits <= 8 then Cfg(dataBits, parity, stopBits) else SERIAL_8N1
  }

  /** The stop-bits test of one parity case: only codes 0 and 2 are recognised. */
  function WithStopBits(stopBits: nat, dataBits: nat, parity: Parity): Cfg
  {
    if stopBits == 0 then WithDataBits(dataBits, parity, OneStop)
    else if stopBits == 2 then WithDataBits(dataBits, parity, TwoStop)
    else SERIAL_8N1
  }

  /**
   * getSerialConfigValue: decode the options word into a token. Parity codes
   * 3 and 4 are in the table only when the target is a SAM board; every
   * combination outside the table gives SERIAL_8N1.
   */
  function SerialConfigValue(archSam: bool, serialOptions: bv16): (r: Cfg)
    ensures Available(archSam, r)
  {
    var dataBits := DataBitsField(serialOptions);
    var parity := ParityField(serialOptions);
    var stopBits := StopBitsField(serialOptions);
    if parity == 0 then WithStopBits(stopBits, dataBits, NoParity)
    else if parity == 1 then WithStopBits(stopBits, dataBits, Even)
    else if parity == 2 then WithStopBits(stopBits, dataBits, Odd)
    else if archSam && parity == 3 then WithStopBits(stopBits, dataBits, Mark)
    else if archSam && parity == 4 then WithStopBits(stopBits, dataBits, Space)
    else SERIAL_8N1
  }

  /** The three field masks are disjoint and together cover exactly bits 8..0. */
  lemma MasksPartitionOptions()
    ensures SERIAL_DATA_BITS_MASK & SERIAL_PARITY_MASK == 0
    ensures SERIAL_DATA_BITS_MASK & SERIAL_STOP_BITS_MASK == 0
    ensures SERIAL_PARITY_MASK & SERIAL_STOP_BITS_MASK == 0
    ensures SERIAL_DATA_BITS_MASK | SERIAL_PARITY_MASK | SERIAL_STOP_BITS_MASK == SERIAL_OPTIONS_MASK
  {
  }

  /** Two options words have the same three fields exactly when they agree on bits 8..0. */
  lemma FieldsDetermineOptions(x: bv16, y: bv16)
    ensures (DataBitsField(x) == DataBitsField(y) && ParityField(x) == ParityField(y)
             && StopBitsField(x) == StopBitsField(y))
            <==> x & SERIAL_OPTIONS_MASK == y & SERIAL_OPTIONS_MASK
  {
  }

  /** The decoder ignores every bit outside 0x01FF. */
  lemma IgnoresUnusedBits(archSam: bool, x: bv16, y: bv16)
    requires x & SERIAL_OPTIONS_MASK == y & SERIAL_OPTIONS_MASK
    ensures SerialConfigValue(archSam, x) == SerialConfigValue(archSam, y)
  {
    FieldsDetermineOptions(x, y);
  }

  /** Stop-bits code 1 (1.5 bits) and 3 give SERIAL_8N1, whatever the rest. */
  lemma UnsupportedStopBitsIsDefault(archSam: bool, x: bv16)
    requires StopBitsField(x) != 0 && StopBitsField(x) != 2
    ensures SerialConfigValue(archSam, x) == SERIAL_8N1
  {
  }

  /** A data-bits field outside 5..8 gives SERIAL_8N1, whatever the rest. */
  lemma UnsupportedDataBitsIsDefault(archSam: bool, x: bv16)
    requires !(5 <= DataBitsField(x) <= 8)
    ensures SerialConfigValue(archSam, x) == SERIAL_8N1
  {
  }

  /** Parity codes 5 to 7 give SERIAL_8N1 on every target. */
  lemma ReservedParityIsDefault(archSam: bool, x: bv16)
    requires ParityField(x) >= 5
    ensures SerialConfigValue(archSam, x) == SERIAL_8N1
  {
  }

  /** Parity codes 3 and 4 (mark, space) give SERIAL_8N1 on a target that is not a SAM board. */
  lemma MarkSpaceNeedSam(x: bv16)
    requires 3 <= ParityField(x) <= 4
    ensures SerialConfigValue(false, x) == SERIAL_8N1
  {
  }

  /**
   * Round trip: every token the target offers is decoded from the options
   * word that asks for it, whatever the bits outside 0x01FF hold.
   */
  lemma DecodesOptionsWord(archSam: bool, c: Cfg, x: bv16)
    requires Available(archSam, c)
    requires x & SERIAL_OPTIONS_MASK == OptionsWord(c)
    ensures SerialConfigValue(archSam, x) == c
  {
    FieldsDetermineOptions(x, OptionsWord(c));
  }

  /**
   * Soundness: a result other than the default was asked for, i.e. bits
   * 8..0 of the options word are exactly the word for that token.
   */
  lemma ResultMatchesOptions(archSam: bool, x: bv16)
    ensures var r := SerialConfigValue(archSam, x);
      r == SERIAL_8N1 || x & SERIAL_OPTIONS_MASK == OptionsWord(r)
  {
    var r := SerialConfigValue(archSam, x);
    FieldsDetermineOptions(x, OptionsWord(r));
  }

  /**
   * The default is returned exactly when the options word asks for 8N1 or
   * asks for no token the target offers.
   */
  lemma DefaultExactlyWhenUnsupported(archSam: bool, x: bv16)
    ensures SerialConfigValue(archSam, x) == SERIAL_8N1 <==>
      (x & SERIAL_OPTIONS_MASK == OptionsWord(SERIAL_8N1)
       || forall c: Cfg :: Available(archSam, c) ==> x & SERIAL_OPTIONS_MASK != OptionsWord(c))
  {
    var r := SerialConfigValue(archSam, x);
    ResultMatchesOptions(archSam, x);
    forall c: Cfg | Available(archSam, c) && x & SERIAL_OPTIONS_MASK == OptionsWord(c)
      ensures r == c
    {
      DecodesOptionsWord(archSam, c, x);
    }
  }

  /** Data 8, parity 0, stop 0 (0x0100) gives SERIAL_8N1. */
  lemma Example8N1(archSam: bool)
    ensures SerialConfigValue(archSam, 0x0100) == SERIAL_8N1
  {
  }

  /** Data 6, parity 1 (even), stop 2 (0x00C6) gives SERIAL_6E2. */
  lemma Example6E2(archSam: bool)
    ensures SerialConfigValue(archSam, 0x00C6) == Cfg(6, Even, TwoStop)
  {
  }

  /** Data 7, parity 3 (mark), stop 0 (0x00EC) gives SERIAL_7M1 on SAM and SERIAL_8N1 elsewhere. */
  lemma ExampleMarkParity(archSam: bool)
    ensures SerialConfigValue(archSam, 0x00EC) == if archSam then Cfg(7, Mark, OneStop) else SERIAL_8N1
  {
  }
}
