/**
  The board descriptor a platform builder fills in (`mraa_board_t` and the
  records it holds): per-pin capability flags and function mappings, the I2C,
  SPI and UART bus tables, the PWM periods and the ADC resolution.
 */
module Board {

  /** `mraa_pincapabilities_t`, in its declaration order. */
  datatype Capabilities = Capabilities(
    valid: bool, gpio: bool, pwm: bool, fastGpio: bool,
    spi: bool, i2c: bool, aio: bool, uart: bool)

  const NoCaps := Capabilities(false, false, false, false, false, false, false, false)
  /** A header position that exists but has no function (power, ground, camera lanes). */
  const PowerCaps := Capabilities(true, false, false, false, false, false, false, false)
  const GpioCaps := Capabilities(true, true, false, false, false, false, false, false)
  const GpioPwmCaps := Capabilities(true, true, true, false, false, false, false, false)
  const GpioSpiCaps := Capabilities(true, true, false, false, true, false, false, false)
  const GpioUartCaps := Capabilities(true, true, false, false, false, false, false, true)
  const I2cCaps := Capabilities(true, false, false, false, false, true, false, false)
  const AioCaps := Capabilities(true, false, false, false, false, false, true, false)

  /**
    One function mapping of a pin (`mraa_pin_t`): the kernel-side number, the
    parent device, and how many mux steps must run before the pin is usable.
   */
  datatype PinMap = PinMap(pinmap: int, parentId: int, muxTotal: nat)

  /** A mapping as the zero-filled allocation leaves it. */
  const Unmapped := PinMap(0, 0, 0)

  /** A mapping a builder writes with only its number: parent 0, no mux steps. */
  function Mapped(pinmap: int): (m: PinMap)
    ensures m.pinmap == pinmap && m.muxTotal == 0
  {
    PinMap(pinmap, 0, 0)
  }

  /** `mraa_pininfo_t`: the name, the capabilities and one mapping per function. */
  datatype Pin = Pin(
    name: string, caps: Capabilities,
    gpio: PinMap, pwm: PinMap, aio: PinMap, i2c: PinMap, spi: PinMap, uart: PinMap)

  /** A pin as `calloc` leaves it: empty name, no capability, nothing mapped. */
  const ZeroPin := Pin("", NoCaps, Unmapped, Unmapped, Unmapped, Unmapped, Unmapped, Unmapped)

  /** No mapping of the pin needs a mux step. */
  predicate NoMux(p: Pin) {
    && p.gpio.muxTotal == 0 && p.pwm.muxTotal == 0 && p.aio.muxTotal == 0
    && p.i2c.muxTotal == 0 && p.spi.muxTotal == 0 && p.uart.muxTotal == 0
  }

  datatype I2cBus = I2cBus(busId: int, sda: int, scl: int)
  datatype SpiBus = SpiBus(busId: int, slaveS: int)
  datatype UartDev = UartDev(devicePath: string, rx: int, tx: int)

  /** The descriptor's scalar fields and bus tables, as one value. */
  datatype Descriptor = Descriptor(
    platformName: string, gpioCount: int,
    pwmDefaultPeriod: int, pwmMaxPeriod: int, pwmMinPeriod: int,
    i2cBuses: seq<I2cBus>, defI2cBus: int,
    spiBuses: seq<SpiBus>, defSpiBus: int,
    uartDevs: seq<UartDev>, defUartDev: int,
    aioCount: nat, adcRaw: nat, adcSupported: nat, phyPinCount: nat,
    aioValidFpOverride: bool)

  /** What `calloc` leaves in those fields. */
  const ZeroDescriptor := Descriptor("", 0, 0, 0, 0, [], 0, [], 0, [], 0, 0, 0, 0, 0, false)

  /**
    The board descriptor. The fixed-size bus arrays with their counts are
    sequences (the count is the length); `aioValidFpOverride` records whether
    the board installed its own `aio_get_valid_fp` advanced function.
   */
  class Board {
    var platformName: string
    var gpioCount: int
    var pwmDefaultPeriod: int
    var pwmMaxPeriod: int
    var pwmMinPeriod: int
    var i2cBuses: seq<I2cBus>
    var defI2cBus: int
    var spiBuses: seq<SpiBus>
    var defSpiBus: int
    var uartDevs: seq<UartDev>
    var defUartDev: int
    var aioCount: nat
    var adcRaw: nat
    var adcSupported: nat
    var phyPinCount: nat
    var pins: array<Pin>
    var aioValidFpOverride: bool

    /** Every field but the pin table, read as one value. */
    ghost function Fields(): Descriptor
      reads this
    {
      Descriptor(platformName, gpioCount, pwmDefaultPeriod, pwmMaxPeriod, pwmMinPeriod,
                 i2cBuses, defI2cBus, spiBuses, defSpiBus, uartDevs, defUartDev,
                 aioCount, adcRaw, adcSupported, phyPinCount, aioValidFpOverride)
    }

    /** The zero-filled descriptor `calloc` returns. */
    constructor ()
      ensures Fields() == ZeroDescriptor && pins.Length == 0
    {
      platformName, gpioCount := "", 0;
      pwmDefaultPeriod, pwmMaxPeriod, pwmMinPeriod := 0, 0, 0;
      i2cBuses, defI2cBus, spiBuses, defSpiBus := [], 0, [], 0;
      uartDevs, defUartDev := [], 0;
      aioCount, adcRaw, adcSupported, phyPinCount := 0, 0, 0, 0;
      pins := new Pin[0];
      aioValidFpOverride := false;
    }
  }
}
