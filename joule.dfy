/**
  The Intel Joule expansion board builder (`mraa_joule_expansion_board`) and
  its analog-input path hook (`mraa_joule_expansion_board_get_valid_fp`).

  Everything the builder learns from the running system arrives as `Probes`:
  the five PCI I2C controller lookups, whether `/dev/i2c-0` exists, the result
  of the legacy designware bus lookup, and the outcomes of the shield probe on
  the first controller's bus (bus open, the two register reads, and the shell
  commands that load the ADC driver). Given those, the builder is deterministic.
 */
module Joule {

  import opened Wrappers
  import opened Decimal
  import opened Common
  import opened Board
  import IioLayout

  const PlatformName: string := "INTEL JOULE EXPANSION"

  // ---------------------------------------------------------------------
  // Probe outcomes
  // ---------------------------------------------------------------------

  /** What `mraa_find_i2c_bus_pci` and `mraa_find_i2c_bus` return when nothing is found. */
  const NotFound: int := -1

  /** The PCI I2C controllers 16.0, 16.1, 16.2, 17.1 and 17.2 are probed in this order. */
  const ProbeCount: nat := 5
  /** The header pins each probed controller is wired to, in probe order. */
  const ProbeSda: seq<int> := [11, 71, 75, 15, 19]
  const ProbeScl: seq<int> := [13, 73, 77, 17, 21]

  /**
    The shield probe on the first controller's bus: whether the bus opened,
    whether a word read answered at address 0x49 and at 0x48, and whether the
    shell commands succeeded that load the ADC driver and register the first
    (0x48) and second (0x49) ADC device.
   */
  datatype ShieldProbe = ShieldProbe(
    busOpened: bool, read49: bool, read48: bool,
    modprobe: bool, addFirst: bool, addSecond: bool)

  datatype Probes = Probes(pci: seq<int>, devI2c0Exists: bool, designware5: int, shield: ShieldProbe)

  // ---------------------------------------------------------------------
  // I2C bus table
  // ---------------------------------------------------------------------

  /** The entry appended when probe `k` found bus `busNum`. */
  function ProbeBus(k: nat, busNum: int): (b: I2cBus)
    requires k < ProbeCount
    ensures b.busId == busNum && b.sda == ProbeSda[k] && b.scl == ProbeScl[k]
  {
    I2cBus(busNum, ProbeSda[k], ProbeScl[k])
  }

  /** How many of the first `n` probes found a controller. */
  function FoundCount(pci: seq<int>, n: nat): (c: nat)
    requires n <= |pci|
    ensures c <= n
  {
    if n == 0 then 0 else FoundCount(pci, n - 1) + (if pci[n - 1] != NotFound then 1 else 0)
  }

  /** The entries the first `n` probes append, one per controller found. */
  function ProbedBuses(pci: seq<int>, n: nat): (r: seq<I2cBus>)
    requires n <= |pci| <= ProbeCount
    ensures |r| == FoundCount(pci, n)
  {
    if n == 0 then []
    else ProbedBuses(pci, n - 1) + (if pci[n - 1] != NotFound then [ProbeBus(n - 1, pci[n - 1])] else [])
  }

  /**
    Every controller found lands in the table, at the position given by the
    number of controllers found before it: the table keeps probe order.
   */
  lemma {:induction false} ProbedPlacement(pci: seq<int>, n: nat, k: nat)
    requires n <= |pci| <= ProbeCount && k < n && pci[k] != NotFound
    ensures FoundCount(pci, k) < |ProbedBuses(pci, n)|
    ensures ProbedBuses(pci, n)[FoundCount(pci, k)] == ProbeBus(k, pci[k])
  {
    if k < n - 1 {
      ProbedPlacement(pci, n - 1, k);
      FoundMonotone(pci, k + 1, n - 1);
    }
  }

  lemma {:induction false} FoundMonotone(pci: seq<int>, m: nat, n: nat)
    requires m <= n <= |pci|
    ensures FoundCount(pci, m) <= FoundCount(pci, n)
  {
    if m < n {
      FoundMonotone(pci, m, n - 1);
    }
  }

  /** And every entry of the table is a controller some probe found. */
  lemma {:induction false} ProbedFromProbe(pci: seq<int>, n: nat, j: nat)
    requires n <= |pci| <= ProbeCount && j < |ProbedBuses(pci, n)|
    ensures exists k :: 0 <= k < n && pci[k] != NotFound && FoundCount(pci, k) == j
                        && ProbedBuses(pci, n)[j] == ProbeBus(k, pci[k])
  {
    var prev := ProbedBuses(pci, n - 1);
    if j < |prev| {
      ProbedFromProbe(pci, n - 1, j);
      var k :| 0 <= k < n - 1 && pci[k] != NotFound && FoundCount(pci, k) == j && prev[j] == ProbeBus(k, pci[k]);
      assert ProbedBuses(pci, n)[j] == prev[j];
    } else {
      assert pci[n - 1] != NotFound && FoundCount(pci, n - 1) == j;
    }
  }

  /**
    The legacy table used when no controller was found but `/dev/i2c-0`
    exists: buses 0, then 5 and 6 when the designware lookup answered 5,
    otherwise 9 and 10.
   */
  function FallbackBuses(designware5: int): (r: seq<I2cBus>)
    ensures |r| == 3
    ensures r[0] == I2cBus(0, 11, 13)
    ensures r[1].busId == (if designware5 == 5 then 5 else 9) && r[2].busId == r[1].busId + 1
  {
    var ids := if designware5 != 5 then (9, 10) else (5, 6);
    [I2cBus(0, 11, 13), I2cBus(ids.0, 15, 17), I2cBus(ids.1, 19, 21)]
  }

  /** The I2C bus table the builder ends with. */
  function I2cTable(p: Probes): (r: seq<I2cBus>)
    requires |p.pci| == ProbeCount
    ensures |r| <= ProbeCount
  {
    var probed := ProbedBuses(p.pci, ProbeCount);
    if |probed| == 0 && p.devI2c0Exists then FallbackBuses(p.designware5) else probed
  }

  /** The fallback replaces the probed table exactly when no probe succeeded and `/dev/i2c-0` exists. */
  lemma FallbackOnlyWhenNothingFound(p: Probes)
    requires |p.pci| == ProbeCount
    ensures I2cTable(p) != ProbedBuses(p.pci, ProbeCount) <==> FoundCount(p.pci, ProbeCount) == 0 && p.devI2c0Exists
    ensures FoundCount(p.pci, ProbeCount) == 0 && !p.devI2c0Exists ==> I2cTable(p) == []
  {
  }

  /** The fallback wires its three buses to the header pins of controllers 16.0, 17.1 and 17.2. */
  lemma FallbackPins(d: int)
    ensures forall i :: 0 <= i < 3 ==> FallbackBuses(d)[i].sda == ProbeSda[[0, 3, 4][i]]
    ensures forall i :: 0 <= i < 3 ==> FallbackBuses(d)[i].scl == ProbeScl[[0, 3, 4][i]]
  {
  }

  /** `def_i2c_bus` is entry 0's bus id, which the zero-filled table leaves at 0. */
  function DefaultI2cBus(buses: seq<I2cBus>): (d: int)
    ensures buses != [] ==> d == buses[0].busId
  {
    if buses == [] then 0 else buses[0].busId
  }

  /**
    The default bus is the one controller 16.0 was found on (the bus the
    shield probe uses), and 0 when no controller was found.
   */
  lemma DefaultBusOfTable(p: Probes)
    requires |p.pci| == ProbeCount
    ensures p.pci[0] != NotFound ==> DefaultI2cBus(I2cTable(p)) == p.pci[0]
    ensures FoundCount(p.pci, ProbeCount) == 0 ==> DefaultI2cBus(I2cTable(p)) == 0
  {
    if p.pci[0] != NotFound {
      ProbedPlacement(p.pci, ProbeCount, 0);
    }
  }

  // ---------------------------------------------------------------------
  // Shield detection and ADC resolution
  // ---------------------------------------------------------------------

  datatype Shield = NoShield | DfRobot | Grove

  /**
    The shield found: probing needs controller 16.0 and its bus to open; an
    answer at 0x49 means DFRobot (two ADS1115 at 0x48 and 0x49), else an
    answer at 0x48 means Grove (one ADS1015 at 0x48). The shield only counts
    when the driver loads and every device registers.
   */
  function DetectShield(p: Probes): (s: Shield)
    requires |p.pci| == ProbeCount
    ensures s != NoShield ==> p.pci[0] != NotFound && p.shield.busOpened && p.shield.modprobe && p.shield.addFirst
    ensures s == DfRobot ==> p.shield.read49 && p.shield.addSecond
    ensures s == Grove ==> !p.shield.read49 && p.shield.read48
    ensures (p.pci[0] != NotFound && p.shield.busOpened && p.shield.read49
             && p.shield.modprobe && p.shield.addFirst && p.shield.addSecond) ==> s == DfRobot
    ensures (p.pci[0] != NotFound && p.shield.busOpened && !p.shield.read49 && p.shield.read48
             && p.shield.modprobe && p.shield.addFirst) ==> s == Grove
  {
    var sp := p.shield;
    if p.pci[0] == NotFound || !sp.busOpened then NoShield
    else if sp.read49 then
      if sp.modprobe && sp.addFirst && sp.addSecond then DfRobot else NoShield
    else if sp.read48 && sp.modprobe && sp.addFirst then Grove
    else NoShield
  }

  /** `aio_count`, `adc_raw` and `adc_supported` as the shield sets them. */
  datatype AdcConfig = AdcConfig(aioCount: nat, raw: nat, supported: nat)

  function Adc(s: Shield): (c: AdcConfig)
    ensures c.aioCount == 0 <==> s == NoShield
    ensures c.aioCount <= 8 && c.supported <= c.raw
    ensures s != NoShield ==> c.supported == 10
  {
    match s
    case NoShield => AdcConfig(0, 0, 0)
      // 12-bit ADS1015 less the sign bit
    case Grove => AdcConfig(4, 11, 10)
      // 16-bit ADS1115 less the sign bit
    case DfRobot => AdcConfig(8, 15, 10)
  }

  // ---------------------------------------------------------------------
  // Pin table
  // ---------------------------------------------------------------------

  /** Header pins 0..80, then padding up to the LEDs at 100..105, then the shield's analog pins. */
  const HeaderCount: nat := 81
  const LedPos: nat := 100
  const ShieldPos: nat := 106

  /** One header pin record: name, capabilities and the gpio, pwm, i2c and uart numbers written. */
  datatype HeaderRow = Row(name: string, caps: Capabilities, gpio: int, pwm: int, i2c: int, uart: int)

  function HeaderPin(r: HeaderRow): (p: Pin)
    ensures p.name == r.name && p.caps == r.caps && NoMux(p)
    ensures p.gpio.pinmap == r.gpio && p.pwm.pinmap == r.pwm && p.i2c.pinmap == r.i2c && p.uart.pinmap == r.uart
    ensures p.aio == Unmapped && p.spi == Unmapped
  {
    ZeroPin.(name := r.name, caps := r.caps, gpio := Mapped(r.gpio), pwm := Mapped(r.pwm),
             i2c := Mapped(r.i2c), uart := Mapped(r.uart))
  }

  /** Pin 0, the placeholder: named "INVALID", with no capability. */
  const InvalidPin := ZeroPin.(name := "INVALID")

  /** The record of header pin `k` (1..80). */
  function HeaderRecord(k: nat): HeaderRow
    requires 1 <= k < HeaderCount
  {
    match k
    case 1 => Row("GPIO22", GpioCaps, 451, 0, 0, 0)
    case 2 => Row("SPP1RX", GpioSpiCaps, 421, 0, 0, 0)
    case 3 => Row("PMICRST", PowerCaps, 366, 0, 0, 0)
    case 4 => Row("SPP1TX", GpioSpiCaps, 422, 0, 0, 0)
    case 5 => Row("19.2mhz", GpioCaps, 356, 0, 0, 0)
    case 6 => Row("SPP1FS0", GpioSpiCaps, 417, 0, 0, 0)
    case 7 => Row("UART0TX", GpioUartCaps, 468, 0, 0, 0)
    case 8 => Row("SPP1FS2", GpioSpiCaps, 419, 0, 0, 0)
    case 9 => Row("PWRGD", PowerCaps, 0, 0, 0, 0)
    case 10 => Row("SPP1CLK", GpioSpiCaps, 416, 0, 0, 0)
    case 11 => Row("I2C0SDA", I2cCaps, 315, 0, 0, 0)
    case 12 => Row("I2S1SDI", GpioCaps, 381, 0, 0, 0)
    case 13 => Row("I2C0SCL", I2cCaps, 316, 0, 0, 0)
    case 14 => Row("I2S1SDO", GpioCaps, 382, 0, 0, 0)
    case 15 => Row("II0SDA", I2cCaps, 331, 0, 0, 0)
    case 16 => Row("I2S1WS", GpioCaps, 380, 0, 0, 0)
    case 17 => Row("IIC0SCL", I2cCaps, 332, 0, 0, 0)
    case 18 => Row("I2S1CLK", GpioCaps, 379, 0, 0, 0)
    case 19 => Row("IIC1SDA", I2cCaps, 333, 0, 0, 0)
    case 20 => Row("I2S1MCL", GpioCaps, 378, 0, 0, 0)
    case 21 => Row("IIC1SCL", I2cCaps, 334, 0, 0, 0)
    case 22 => Row("UART1TX", GpioUartCaps, 472, 0, 0, 0)
    case 23 => Row("ISH_IO6", GpioCaps, 343, 0, 0, 0)
    case 24 => Row("UART1RX", GpioUartCaps, 471, 0, 0, 0)
    case 25 => Row("ISH_IO5", GpioCaps, 342, 0, 0, 0)
    case 26 => Row("PWM0", GpioPwmCaps, 463, 0, 0, 0)
    case 27 => Row("ISH_IO4", GpioCaps, 341, 0, 0, 0)
    case 28 => Row("PWM1", GpioPwmCaps, 464, 1, 0, 0)
    case 29 => Row("ISH_IO3", GpioCaps, 340, 0, 0, 0)
    case 30 => Row("PWM2", GpioPwmCaps, 465, 2, 0, 0)
    case 31 => Row("ISH_IO2", GpioCaps, 339, 0, 0, 0)
    case 32 => Row("PWM3", GpioPwmCaps, 466, 3, 0, 0)
    case 33 => Row("ISH_IO1", GpioCaps, 338, 0, 0, 0)
    case 34 => Row("1.8V", PowerCaps, 0, 0, 0, 0)
    case 35 => Row("ISH_IO0", GpioCaps, 337, 0, 0, 0)
    case 36 => Row("GND", PowerCaps, 0, 0, 0, 0)
    case 37 => Row("GND", PowerCaps, 0, 0, 0, 0)
    case 38 => Row("GND", PowerCaps, 0, 0, 0, 0)
    case 39 => Row("GND", PowerCaps, 0, 0, 0, 0)
    case 40 => Row("3.3V", PowerCaps, 0, 0, 0, 0)
    case 41 => Row("GND", PowerCaps, 0, 0, 0, 0)
    case 42 => Row("5V", PowerCaps, 0, 0, 0, 0)
    case 43 => Row("GND", PowerCaps, 0, 0, 0, 0)
    case 44 => Row("5V", PowerCaps, 0, 0, 0, 0)
    case 45 => Row("GND", PowerCaps, 0, 0, 0, 0)
    case 46 => Row("3.3V", PowerCaps, 0, 0, 0, 0)
    case 47 => Row("GND", PowerCaps, 0, 0, 0, 0)
    case 48 => Row("3.3V", PowerCaps, 0, 0, 0, 0)
    case 49 => Row("GND", PowerCaps, 0, 0, 0, 0)
    case 50 => Row("1.8V", PowerCaps, 0, 0, 0, 0)
    case 51 => Row("GPIO", GpioCaps, 456, 0, 0, 0)
    case 52 => Row("1.8V", PowerCaps, 0, 0, 0, 0)
    case 53 => Row("PANEL", GpioCaps, 270, 0, 0, 0)
    case 54 => Row("GND", PowerCaps, 0, 0, 0, 0)
    case 55 => Row("PANEL", GpioCaps, 271, 0, 0, 0)
    case 56 => Row("CAMERA", PowerCaps, 0, 0, 0, 0)
    case 57 => Row("PANEL", GpioCaps, 272, 0, 0, 0)
    case 58 => Row("CAMERA", PowerCaps, 0, 0, 0, 0)
    case 59 => Row("SPP0FS0", GpioSpiCaps, 411, 0, 0, 0)
    case 60 => Row("CAMERA", PowerCaps, 0, 0, 0, 0)
    case 61 => Row("SPP0FS1", GpioSpiCaps, 412, 0, 0, 0)
    case 62 => Row("SPI_DAT", PowerCaps, 385, 0, 0, 0)
    case 63 => Row("SPP0FS2", GpioSpiCaps, 413, 0, 0, 0)
    case 64 => Row("SPICLKB", GpioCaps, 384, 0, 0, 0)
    case 65 => Row("SPP0CLK", GpioSpiCaps, 410, 0, 0, 0)
    case 66 => Row("SPICLKA", GpioCaps, 383, 0, 0, 0)
    case 67 => Row("SPP0TX", GpioSpiCaps, 414, 0, 0, 0)
    case 68 => Row("UART0RX", GpioCaps, 467, 0, 0, 0)
    case 69 => Row("SPP0RX", GpioSpiCaps, 415, 0, 0, 0)
    case 70 => Row("UART0RT", GpioUartCaps, 469, 0, 0, 0)
    case 71 => Row("I2C1SDA", I2cCaps, 317, 0, 0, 0)
    case 72 => Row("UART0CT", GpioUartCaps, 470, 0, 0, 0)
    case 73 => Row("I2C1SCL", I2cCaps, 318, 0, 0, 0)
    case 74 => Row("IURT0TX", GpioUartCaps, 480, 0, 0, 0)
    case 75 => Row("I2C2SDA", I2cCaps, 319, 0, 0, 0)
    case 76 => Row("IURT0RX", GpioUartCaps, 479, 0, 0, 0)
    case 77 => Row("I2C2SCL", I2cCaps, 320, 0, 0, 0)
    case 78 => Row("IURT0RT", GpioUartCaps, 481, 0, 0, 0)
    case 79 => Row("RTC_CLK", GpioCaps, 367, 0, 0, 0)
    case _ => Row("IURT0CT", GpioUartCaps, 482, 0, 0, 0)
  }

  /** A gpio-only pin, as each LED is written. */
  function LedPin(name: string, gpio: int): (p: Pin)
    ensures p.name == name && p.caps == GpioCaps && p.gpio == Mapped(gpio) && NoMux(p)
  {
    ZeroPin.(name := name, caps := GpioCaps, gpio := Mapped(gpio))
  }

  const LedPins: seq<Pin> := [
    LedPin("LED100", 337), LedPin("LED101", 338), LedPin("LED102", 339),
    LedPin("LED103", 340), LedPin("LEDBT", 438), LedPin("LEDWIFI", 439)
  ]

  /** "A0" .. "A7". */
  function AioName(k: nat): (name: string)
    requires k < 8
    ensures |name| == 2 && name[0] == 'A' && IsDigit(name[1]) && DigitValue(name[1]) == k
  {
    ['A', DigitChar(k)]
  }

  /** Analog input `k` of the shield: valid and aio only, mapped to ADC input `k`. */
  function AioPin(k: nat): (p: Pin)
    requires k < 8
    ensures p.name == AioName(k) && p.caps == AioCaps && p.aio == Mapped(k) && NoMux(p)
  {
    ZeroPin.(name := AioName(k), caps := AioCaps, aio := Mapped(k))
  }

  /** The pin the finished table holds at index `i` for the detected shield. */
  function PinAt(i: nat, s: Shield): Pin {
    if i == 0 then InvalidPin
    else if i < HeaderCount then HeaderPin(HeaderRecord(i))
    else if i < LedPos then ZeroPin
    else if i < ShieldPos then LedPins[i - LedPos]
    else if i < ShieldPos + Adc(s).aioCount then AioPin(i - ShieldPos)
    else ZeroPin
  }

  /**
    The fixed part of the table: pin 0 is the "INVALID" placeholder with no
    capability, 81..99 are empty, 100..105 are the gpio-only LEDs, and no pin
    of any shield needs a mux step.
   */
  lemma PinTableLayout(s: Shield)
    ensures PinAt(0, s).name == "INVALID" && PinAt(0, s).caps == NoCaps
    ensures forall i :: HeaderCount <= i < LedPos ==> PinAt(i, s) == ZeroPin
    ensures forall i :: LedPos <= i < ShieldPos ==> PinAt(i, s).caps == GpioCaps
    ensures forall i :: 0 <= i ==> NoMux(PinAt(i, s))
  {
  }

  /**
    The shield's analog pins follow the LEDs: pin 106 + k is analog input k
    named "Ak", for every k below the shield's `aio_count`, and the DFRobot
    table shares A0..A3 with the Grove one (the switch falls through).
   */
  lemma ShieldPinLayout(s: Shield, k: nat)
    requires k < Adc(s).aioCount
    ensures PinAt(ShieldPos + k, s).name == AioName(k)
    ensures PinAt(ShieldPos + k, s).caps == AioCaps && PinAt(ShieldPos + k, s).aio.pinmap == k
    ensures k < 4 ==> PinAt(ShieldPos + k, DfRobot) == PinAt(ShieldPos + k, Grove)
  {
  }

  // ---------------------------------------------------------------------
  // The DFRobot case as written
  // ---------------------------------------------------------------------

  /**
    The DFRobot case of the switch exactly as written, on the eight slots
    after the LEDs: the name "A7" is stored into slot 5, not slot 7.
   */
  function DfRobotCaseAsWritten(s: seq<Pin>): (r: seq<Pin>)
    requires |s| == 8
    ensures |r| == 8
  {
    var s := s[4 := s[4].(name := "A4", caps := AioCaps, aio := s[4].aio.(pinmap := 4, muxTotal := 0))];
    var s := s[5 := s[5].(name := "A5", caps := AioCaps, aio := s[5].aio.(pinmap := 5, muxTotal := 0))];
    var s := s[6 := s[6].(name := "A6", caps := AioCaps, aio := s[6].aio.(pinmap := 6, muxTotal := 0))];
    var s := s[5 := s[5].(name := "A7")];
    s[7 := s[7].(caps := AioCaps, aio := s[7].aio.(pinmap := 7, muxTotal := 0))]
  }

  /** The Grove case, which the DFRobot case falls into. */
  function GroveCase(s: seq<Pin>): (r: seq<Pin>)
    requires |s| >= 4
    ensures |r| == |s| && r[4..] == s[4..]
    ensures forall k :: 0 <= k < 4 ==> r[k].name == AioName(k) && r[k].aio.pinmap == k
  {
    var s := s[0 := s[0].(name := "A0", caps := AioCaps, aio := s[0].aio.(pinmap := 0, muxTotal := 0))];
    var s := s[1 := s[1].(name := "A1", caps := AioCaps, aio := s[1].aio.(pinmap := 1, muxTotal := 0))];
    var s := s[2 := s[2].(name := "A2", caps := AioCaps, aio := s[2].aio.(pinmap := 2, muxTotal := 0))];
    s[3 := s[3].(name := "A3", caps := AioCaps, aio := s[3].aio.(pinmap := 3, muxTotal := 0))]
  }

  /**
    On the zero-filled table the written DFRobot layout names analog input 5
    "A7" and leaves analog input 7, which is otherwise set up, without a name.
   */
  lemma DfRobotNamesAsWritten()
    ensures var r := GroveCase(DfRobotCaseAsWritten(seq(8, _ => ZeroPin)));
      && r[5].name == "A7" && r[5].aio.pinmap == 5
      && r[7].name == "" && r[7].caps == AioCaps && r[7].aio.pinmap == 7
      && r[5] != AioPin(5) && r[7] != AioPin(7)
  {
    var r := GroveCase(DfRobotCaseAsWritten(seq(8, _ => ZeroPin)));
    assert r[4..][1] == r[5] && r[4..][3] == r[7];
    assert AioPin(5).name == "A5";
  }

  /**
    The shield switch with the DFRobot case naming its pins "A4".."A7" as
    intended, falling through to the Grove case for "A0".."A3"; on a
    zero-filled table every analog slot becomes `AioPin(k)`.
   */
  method WriteShieldPins(pins: array<Pin>, pos: nat, s: Shield)
    requires pos + Adc(s).aioCount <= pins.Length
    requires forall i :: pos <= i < pos + Adc(s).aioCount ==> pins[i] == ZeroPin
    modifies pins
    ensures forall i :: pos <= i < pos + Adc(s).aioCount ==> pins[i] == AioPin(i - pos)
    ensures forall i :: 0 <= i < pins.Length && !(pos <= i < pos + Adc(s).aioCount) ==> pins[i] == old(pins[i])
  {
    if s == DfRobot {
      WriteAioPin(pins, pos + 4, 4);
      WriteAioPin(pins, pos + 5, 5);
      WriteAioPin(pins, pos + 6, 6);
      WriteAioPin(pins, pos + 7, 7);
    }
    if s == DfRobot || s == Grove {
      WriteAioPin(pins, pos, 0);
      WriteAioPin(pins, pos + 1, 1);
      WriteAioPin(pins, pos + 2, 2);
      WriteAioPin(pins, pos + 3, 3);
    }
  }

  /** Name, capabilities and aio mapping of one analog pin, written field by field. */
  method WriteAioPin(pins: array<Pin>, at: nat, k: nat)
    requires at < pins.Length && k < 8
    modifies pins
    ensures pins[at] == old(pins[at]).(name := AioName(k), caps := AioCaps, aio := old(pins[at]).aio.(pinmap := k, muxTotal := 0))
    ensures forall i :: 0 <= i < pins.Length && i != at ==> pins[i] == old(pins[i])
  {
    pins[at] := pins[at].(name := AioName(k), caps := AioCaps, aio := pins[at].aio.(pinmap := k, muxTotal := 0));
  }

  // ---------------------------------------------------------------------
  // The builder
  // ---------------------------------------------------------------------

  /**
    Fills a zero-filled pin table: the placeholder pin 0, the header
    records, the padding loop up to index 100, the six LEDs, then the
    shield's analog pins.
   */
  method FillPins(pins: array<Pin>, s: Shield)
    requires ShieldPos + Adc(s).aioCount <= pins.Length
    requires forall i :: 0 <= i < pins.Length ==> pins[i] == ZeroPin
    modifies pins
    ensures PinTableOf(pins, s)
  {
    pins[0] := pins[0].(name := "INVALID", caps := NoCaps);
    WriteHeader(pins);
    var pos := PadToLeds(pins);
    WriteLeds(pins, pos);
    WriteShieldPins(pins, pos + 6, s);
  }

  /** Header pins 1..80 from their records. */
  method WriteHeader(pins: array<Pin>)
    requires ShieldPos <= pins.Length
    modifies pins
    ensures forall i :: 1 <= i < HeaderCount ==> pins[i] == HeaderPin(HeaderRecord(i))
    ensures forall i :: 0 <= i < pins.Length && !(1 <= i < HeaderCount) ==> pins[i] == old(pins[i])
  {
    for pos := 1 to HeaderCount
      invariant forall i :: 1 <= i < pos ==> pins[i] == HeaderPin(HeaderRecord(i))
      invariant forall i :: 0 <= i < pins.Length && !(1 <= i < pos) ==> pins[i] == old(pins[i])
    {
      WriteHeaderPin(pins, pos);
    }
  }

  /** One header pin from its record. */
  method WriteHeaderPin(pins: array<Pin>, k: nat)
    requires 1 <= k < HeaderCount && k < pins.Length
    modifies pins
    ensures pins[k] == HeaderPin(HeaderRecord(k))
    ensures forall i :: 0 <= i < pins.Length && i != k ==> pins[i] == old(pins[i])
  {
    pins[k] := HeaderPin(HeaderRecord(k));
  }

  /** The `while (pos != 100)` loop: clears the capabilities of the pins after the header. */
  method PadToLeds(pins: array<Pin>) returns (pos: nat)
    requires ShieldPos <= pins.Length
    requires forall i :: HeaderCount <= i < LedPos ==> pins[i] == ZeroPin
    modifies pins
    ensures pos == LedPos
    ensures forall i :: 0 <= i < pins.Length ==> pins[i] == old(pins[i])
  {
    pos := HeaderCount;
    while pos != LedPos
      invariant HeaderCount <= pos <= LedPos
      invariant forall i :: 0 <= i < pins.Length ==> pins[i] == old(pins[i])
      decreases LedPos - pos
    {
      pins[pos] := pins[pos].(caps := NoCaps);
      pos := pos + 1;
    }
  }

  /** The six LED pins, one after another from `pos`. */
  method WriteLeds(pins: array<Pin>, pos: nat)
    requires pos == LedPos && ShieldPos <= pins.Length
    requires forall i :: LedPos <= i < ShieldPos ==> pins[i] == ZeroPin
    modifies pins
    ensures forall i :: LedPos <= i < ShieldPos ==> pins[i] == LedPins[i - LedPos]
    ensures forall i :: 0 <= i < pins.Length && !(LedPos <= i < ShieldPos) ==> pins[i] == old(pins[i])
  {
    WriteLed(pins, pos, "LED100", 337);
    WriteLed(pins, pos + 1, "LED101", 338);
    WriteLed(pins, pos + 2, "LED102", 339);
    WriteLed(pins, pos + 3, "LED103", 340);
    WriteLed(pins, pos + 4, "LEDBT", 438);
    WriteLed(pins, pos + 5, "LEDWIFI", 439);
  }

  /** Name, capabilities and gpio mapping of one LED pin, written field by field. */
  method WriteLed(pins: array<Pin>, at: nat, name: string, gpio: int)
    requires at < pins.Length
    modifies pins
    ensures pins[at] == old(pins[at]).(name := name, caps := GpioCaps, gpio := old(pins[at]).gpio.(pinmap := gpio, muxTotal := 0))
    ensures forall i :: 0 <= i < pins.Length && i != at ==> pins[i] == old(pins[i])
  {
    pins[at] := pins[at].(name := name, caps := GpioCaps, gpio := pins[at].gpio.(pinmap := gpio, muxTotal := 0));
  }

  const SpiBuses: seq<SpiBus> := [SpiBus(32766, 0), SpiBus(32766, 1), SpiBus(32766, 2), SpiBus(32765, 0), SpiBus(32765, 2)]
  const UartDevs: seq<UartDev> := [UartDev("/dev/ttyS0", 68, 7), UartDev("/dev/ttyS1", 24, 22)]

  /**
    The five PCI probes, each appending its controller's bus when found, then
    the legacy table when none was found and `/dev/i2c-0` exists.
   */
  method ProbeI2cBuses(probes: Probes) returns (buses: seq<I2cBus>)
    requires |probes.pci| == ProbeCount
    ensures buses == I2cTable(probes)
  {
    buses := [];
    var pci := probes.pci;
    var busNum := pci[0];
    if busNum != NotFound {
      buses := buses + [I2cBus(busNum, 11, 13)];
    }
    assert buses == ProbedBuses(pci, 1);
    busNum := pci[1];
    if busNum != NotFound {
      buses := buses + [I2cBus(busNum, 71, 73)];
    }
    assert buses == ProbedBuses(pci, 2);
    busNum := pci[2];
    if busNum != NotFound {
      buses := buses + [I2cBus(busNum, 75, 77)];
    }
    assert buses == ProbedBuses(pci, 3);
    busNum := pci[3];
    if busNum != NotFound {
      buses := buses + [I2cBus(busNum, 15, 17)];
    }
    assert buses == ProbedBuses(pci, 4);
    busNum := pci[4];
    if busNum != NotFound {
      buses := buses + [I2cBus(busNum, 19, 21)];
    }
    assert buses == ProbedBuses(pci, 5);

    if |buses| == 0 && probes.devI2c0Exists {
      var second, third := 5, 6;
      if probes.designware5 != 5 {
        second, third := 9, 10;
      }
      buses := [I2cBus(0, 11, 13), I2cBus(second, 15, 17), I2cBus(third, 19, 21)];
    }
  }

  /** The table holds, at every index, the pin `PinAt` gives for the shield. */
  ghost predicate PinTableOf(pins: array<Pin>, s: Shield)
    reads pins
  {
    forall i :: 0 <= i < pins.Length ==> pins[i] == PinAt(i, s)
  }

  /**
    The descriptor fields the builder ends with: the probed (or fallback)
    I2C table, the fixed SPI and UART tables, and the shield's ADC setup;
    the physical pin count grows by the shield's analog inputs.
   */
  function JouleDescriptor(base: nat, probes: Probes): (d: Descriptor)
    requires |probes.pci| == ProbeCount
    ensures d.platformName == PlatformName && d.gpioCount == base
    ensures |d.i2cBuses| <= ProbeCount && |d.spiBuses| == 5 && |d.uartDevs| == 2
    ensures d.phyPinCount == base + d.aioCount
    ensures d.adcSupported <= d.adcRaw
    ensures d.aioValidFpOverride <==> d.aioCount == 8
  {
    var shield := DetectShield(probes);
    var adc := Adc(shield);
    var buses := I2cTable(probes);
    Descriptor(PlatformName, base, 5000, 218453, 1,
               buses, DefaultI2cBus(buses), SpiBuses, 0, UartDevs, 0,
               adc.aioCount, adc.raw, adc.supported, base + adc.aioCount, shield == DfRobot)
  }

  /** Name, gpio count and PWM periods. */
  method SetIdentity(b: Board, base: nat)
    modifies b
    ensures b.Fields() == old(b.Fields()).(platformName := PlatformName, gpioCount := base,
      pwmDefaultPeriod := 5000, pwmMaxPeriod := 218453, pwmMinPeriod := 1)
    ensures b.pins == old(b.pins)
  {
    b.platformName := PlatformName;
    b.gpioCount := base;
    b.pwmDefaultPeriod := 5000;
    b.pwmMaxPeriod := 218453;
    b.pwmMinPeriod := 1;
  }

  /** The I2C table and its default: entry 0, which stays zero when the table is empty. */
  method SetI2cBuses(b: Board, probes: Probes)
    requires |probes.pci| == ProbeCount
    modifies b
    ensures b.Fields() == old(b.Fields()).(i2cBuses := I2cTable(probes), defI2cBus := DefaultI2cBus(I2cTable(probes)))
    ensures b.pins == old(b.pins)
  {
    b.i2cBuses := ProbeI2cBuses(probes);
    b.defI2cBus := if |b.i2cBuses| > 0 then b.i2cBuses[0].busId else 0;
  }

  /** The fixed SPI and UART tables with their defaults. */
  method SetSpiUart(b: Board)
    modifies b
    ensures b.Fields() == old(b.Fields()).(spiBuses := SpiBuses, defSpiBus := 0, uartDevs := UartDevs, defUartDev := 0)
    ensures b.pins == old(b.pins)
  {
    b.spiBuses, b.defSpiBus := SpiBuses, 0;
    b.uartDevs, b.defUartDev := UartDevs, 0;
  }

  /**
    The shield probe on the bus controller 16.0 was found on: a detected
    shield sets the ADC fields (and, for DFRobot, the path hook) and returns
    the number of analog pins it adds.
   */
  method ProbeShield(b: Board, probes: Probes) returns (shield: Shield, added: nat)
    requires |probes.pci| == ProbeCount
    requires b.aioCount == 0 && b.adcRaw == 0 && b.adcSupported == 0 && !b.aioValidFpOverride
    modifies b
    ensures shield == DetectShield(probes) && added == Adc(shield).aioCount
    ensures b.Fields() == old(b.Fields()).(aioCount := added, adcRaw := Adc(shield).raw,
      adcSupported := Adc(shield).supported, aioValidFpOverride := shield == DfRobot)
    ensures b.pins == old(b.pins)
  {
    shield, added := NoShield, 0;
    var aioBus := probes.pci[0];
    var sp := probes.shield;
    if aioBus != NotFound && sp.busOpened {
      if !sp.read49 {
        if sp.read48 && sp.modprobe && sp.addFirst {
          b.aioCount, b.adcRaw, b.adcSupported := 4, 11, 10;
          added := b.aioCount;
          shield := Grove;
        }
      } else if sp.modprobe && sp.addFirst && sp.addSecond {
        b.aioCount, b.adcRaw, b.adcSupported := 8, 15, 10;
        b.aioValidFpOverride := true;
        added := b.aioCount;
        shield := DfRobot;
      }
    }
  }

  /**
    The physical pin count, the zero-filled pin table filled for the shield,
    and the switch's "no shield" case, which clears the ADC fields.
   */
  method SetPins(b: Board, shield: Shield, pincount: nat)
    requires ShieldPos + Adc(shield).aioCount <= pincount
    requires shield == NoShield ==> b.aioCount == 0 && b.adcRaw == 0 && b.adcSupported == 0
    modifies b
    ensures b.Fields() == old(b.Fields()).(phyPinCount := pincount)
    ensures fresh(b.pins) && b.pins.Length == pincount && PinTableOf(b.pins, shield)
  {
    b.phyPinCount := pincount;
    var pins := new Pin[pincount](_ => ZeroPin);
    FillPins(pins, shield);
    b.pins := pins;
    if shield == NoShield {
      b.aioCount, b.adcRaw, b.adcSupported := 0, 0, 0;
    }
  }

  /**
    `mraa_joule_expansion_board`: the descriptor for the given probe outcomes.
    `base` is the board's own pin count, which leaves room for the LEDs.
   */
  method JouleExpansionBoard(base: nat, probes: Probes) returns (b: Board)
    requires ShieldPos <= base && |probes.pci| == ProbeCount
    ensures fresh(b) && fresh(b.pins)
    ensures b.Fields() == JouleDescriptor(base, probes)
    ensures b.pins.Length == b.phyPinCount && PinTableOf(b.pins, DetectShield(probes))
  {
    var pincount := base;
    b := new Board();
    SetIdentity(b, base);
    SetI2cBuses(b, probes);
    SetSpiUart(b);
    var shield, added := ProbeShield(b, probes);
    pincount := pincount + added;
    SetPins(b, shield, pincount);
  }

  // ---------------------------------------------------------------------
  // Analog input path
  // ---------------------------------------------------------------------

  /** Size of the buffer the path is printed into. */
  const AioPathSize: nat := 64

  /** The `unsigned int` channel of an analog input context. */
  predicate IsChannel(channel: nat) {
    channel < 0x1_0000_0000
  }

  /** The raw-value file of input `input` of IIO device `device`. */
  function RawPath(device: nat, input: nat): string {
    Printed2(IioLayout.SysfsDevice, device, "/in_voltage", input, "_raw")
  }

  /**
    The raw-value file of analog channel `channel`: four inputs per ADC, so
    input `channel % 4` of IIO device `channel / 4`. Every 32-bit channel
    fits the 64-byte buffer, so the text is never truncated.
   */
  function AioRawPath(channel: nat): (path: string)
    requires IsChannel(channel)
    ensures |path| < AioPathSize
  {
    Pow10Values();
    NatToStringLength(channel / 4, 10);
    RawPath(channel / 4, channel % 4)
  }

  lemma Pow10Values()
    ensures Pow10(10) == 10_000_000_000
  {
    assert Pow10(2) == 100;
    assert Pow10(4) == 10_000 by { assert Pow10(3) == 1000; }
    assert Pow10(6) == 1_000_000 by { assert Pow10(5) == 100_000; }
    assert Pow10(8) == 100_000_000 by { assert Pow10(7) == 10_000_000; }
    assert Pow10(9) == 1_000_000_000;
  }

  /**
    `mraa_joule_expansion_board_get_valid_fp`: success when the channel's raw
    file opens for reading, "invalid resource" otherwise. `openable` stands
    for the files `open` succeeds on.
   */
  function GetValidFp(channel: nat, openable: set<string>): (r: MraaResult)
    requires IsChannel(channel)
    ensures r == Success || r == ErrorInvalidResource
    ensures r == Success <==> AioRawPath(channel) in openable
  {
    if AioRawPath(channel) in openable then Success else ErrorInvalidResource
  }

  /** Different channels open different files. */
  lemma AioRawPathInjective(a: nat, b: nat)
    requires IsChannel(a) && IsChannel(b) && AioRawPath(a) == AioRawPath(b)
    ensures a == b
  {
    RawPathInjective(a / 4, a % 4, b / 4, b % 4);
  }

  /** The `%u` after the sysfs prefix reads back the device number. */
  lemma RawPathDevice(device: nat, input: nat)
    ensures var d := |IioLayout.SysfsDevice|;
      ScanUnsigned(RawPath(device, input), d) == Some((device, d + |NatToString(device)|))
  {
    ScanPrinted2First(IioLayout.SysfsDevice, device, "/in_voltage", input, "_raw");
  }

  /** The `%u` after "/in_voltage" reads back the one-digit input number. */
  lemma RawPathInput(device: nat, input: nat)
    requires input < 10
    ensures var at := |IioLayout.SysfsDevice| + |NatToString(device)| + 11;
      ScanUnsigned(RawPath(device, input), at) == Some((input, at + 1))
  {
    assert |NatToString(input)| == 1;
    ScanPrinted2Second(IioLayout.SysfsDevice, device, "/in_voltage", input, "_raw");
  }

  /** Different devices or inputs name different files. */
  lemma RawPathInjective(device: nat, input: nat, device': nat, input': nat)
    requires RawPath(device, input) == RawPath(device', input')
    ensures device == device' && input == input'
  {
    Printed2Injective(IioLayout.SysfsDevice, device, "/in_voltage", input, "_raw", device', input');
  }
}
