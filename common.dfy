/**
  The shared definitions of api/mraa/common.h: the sub-platform marker bit
  that lets a chained expansion board share the logical pin and bus numbering
  of the base board, the result codes, and the process-wide platform state
  that `mraa_init`, `mraa_select_main_platform`, `mraa_select_sub_platform`,
  `mraa_is_sub_platform_selected` and the ADC accessors document.
 */
module Common {

  import opened Wrappers

  /** The C `int`: logical pin and bus ids cross the API as 32-bit signed values. */
  type Int32 = x: int | -0x8000_0000 <= x < 0x8000_0000

  /** Result codes of `mraa_result_t` that the modelled code returns. */
  datatype MraaResult =
    | Success
    | ErrorInvalidResource
    | ErrorUnspecified
    | ErrorPlatformAlreadyInitialised
    | IoSetupFailure
      /** The bare `return -1` of the channel scan, which is not one of the named codes. */
    | MinusOne

  function Pow2(k: nat): (r: nat)
    ensures r >= 1
  {
    if k == 0 then 1 else 2 * Pow2(k - 1)
  }

  /** Bit `k` of `x` in two's complement (for negative `x` too, since `/` rounds down). */
  predicate BitSet(x: int, k: nat) {
    (x / Pow2(k)) % 2 == 1
  }

  const SubPlatformBitShift: nat := 9
  const SubPlatformMask: nat := Pow2(SubPlatformBitShift)

  lemma SubPlatformMaskValue()
    ensures SubPlatformMask == 512
  {
    calc {
      Pow2(9);
      2 * Pow2(8);
      4 * Pow2(7);
      { assert Pow2(7) == 128 by { assert Pow2(3) == 8; } }
      512;
    }
  }

  // ---------------------------------------------------------------------
  // Sub-platform address codec
  // ---------------------------------------------------------------------

  /** `mraa_is_on_sub_platform`: whether the id carries the marker, `(id & MASK) != 0`. */
  function IsOnSubPlatform(pinOrBus: Int32): (r: bool)
    ensures r <==> BitSet(pinOrBus, SubPlatformBitShift)
  {
    MarkerBit(pinOrBus);
    pinOrBus % 1024 >= 512
  }

  lemma MarkerBit(x: int)
    ensures BitSet(x, SubPlatformBitShift) <==> x % 1024 >= 512
  {
    SubPlatformMaskValue();
    var h, l := x / 1024, x % 1024;
    assert x == 512 * (2 * h + l / 512) + l % 512;
    assert x / 512 == 2 * h + l / 512;
  }

  /** Adding the marker to an id without it changes no other bit and carries nothing. */
  lemma SetMarker(x: int)
    requires x % 1024 < 512
    ensures (x + 512) % 1024 >= 512
    ensures (x + 512) % 512 == x % 512 && (x + 512) / 1024 == x / 1024
  {
    var h, l := x / 1024, x % 1024;
    assert x + 512 == 1024 * h + (l + 512);
  }

  /** Removing the marker from an id with it changes no other bit and borrows nothing. */
  lemma ClearMarker(x: int)
    requires x % 1024 >= 512
    ensures (x - 512) % 1024 < 512
    ensures (x - 512) % 512 == x % 512 && (x - 512) / 1024 == x / 1024
  {
    var h, l := x / 1024, x % 1024;
    assert x - 512 == 1024 * h + (l - 512);
  }

  /**
    `mraa_use_sub_platform`: the id with the marker set, `id | MASK`. Bit 9 is
    set, the bits below it (`% 512`) and above it (`/ 1024`) are those of the
    input, so the result stays a 32-bit int.
   */
  function UseSubPlatform(pinOrBus: Int32): (r: Int32)
    ensures IsOnSubPlatform(r)
    ensures r % 512 == pinOrBus % 512 && r / 1024 == pinOrBus / 1024
  {
    SubPlatformMaskValue();
    if IsOnSubPlatform(pinOrBus) then pinOrBus
    else
      SetMarker(pinOrBus);
      assert pinOrBus / 1024 < 0x20_0000;
      pinOrBus + SubPlatformMask
  }

  /**
    `mraa_get_sub_platform_index`: the id with the marker cleared,
    `id & ~MASK`, i.e. the pin or bus index inside the sub platform's own table.
   */
  function GetSubPlatformIndex(pinOrBus: Int32): (r: Int32)
    ensures !IsOnSubPlatform(r)
    ensures r % 512 == pinOrBus % 512 && r / 1024 == pinOrBus / 1024
  {
    SubPlatformMaskValue();
    if !IsOnSubPlatform(pinOrBus) then pinOrBus
    else
      ClearMarker(pinOrBus);
      pinOrBus - SubPlatformMask
  }

  /** Two ids agreeing in bit 9 and in the bits below and above it are the same id. */
  lemma SameBitsSameId(a: int, b: int)
    requires a % 512 == b % 512 && a / 1024 == b / 1024
    requires (a % 1024 >= 512) == (b % 1024 >= 512)
    ensures a == b
  {
    assert a == 1024 * (a / 1024) + a % 1024;
    assert b == 1024 * (b / 1024) + b % 1024;
    assert a % 1024 == (if a % 1024 >= 512 then 512 else 0) + a % 512;
    assert b % 1024 == (if b % 1024 >= 512 then 512 else 0) + b % 512;
  }

  /** Every index of a sub-platform table below 512 comes back from its encoded id. */
  lemma SubPlatformRoundTrip(p: Int32)
    requires 0 <= p < 512
    ensures !IsOnSubPlatform(p)
    ensures IsOnSubPlatform(UseSubPlatform(p))
    ensures GetSubPlatformIndex(UseSubPlatform(p)) == p
  {
    var e := UseSubPlatform(p);
    var d := GetSubPlatformIndex(e);
    SameBitsSameId(d, p);
  }

  /** The general form: decoding undoes encoding for any id without the marker. */
  lemma DecodeEncode(x: Int32)
    requires !IsOnSubPlatform(x)
    ensures GetSubPlatformIndex(UseSubPlatform(x)) == x
  {
    SameBitsSameId(GetSubPlatformIndex(UseSubPlatform(x)), x);
  }

  /** And encoding undoes decoding for any id with the marker. */
  lemma EncodeDecode(x: Int32)
    requires IsOnSubPlatform(x)
    ensures UseSubPlatform(GetSubPlatformIndex(x)) == x
  {
    SameBitsSameId(UseSubPlatform(GetSubPlatformIndex(x)), x);
  }

  /** Setting the marker twice is setting it once. */
  lemma UseSubPlatformIdempotent(x: Int32)
    ensures UseSubPlatform(UseSubPlatform(x)) == UseSubPlatform(x)
  {
    SameBitsSameId(UseSubPlatform(UseSubPlatform(x)), UseSubPlatform(x));
  }

  lemma SubPlatformExample()
    ensures UseSubPlatform(3) == 515 && IsOnSubPlatform(515) && GetSubPlatformIndex(515) == 3
  {
    SubPlatformRoundTrip(3);
  }

  // ---------------------------------------------------------------------
  // Platform state: initialisation, main / sub selection, ADC resolution
  // ---------------------------------------------------------------------

  /** The facts about a loaded board that the documented calls report. */
  datatype BoardInfo = BoardInfo(platformName: string, phyPinCount: nat, aioCount: nat, adcRaw: nat, adcSupported: nat)

  datatype Side = MainSide | SubSide

  /**
    The library's process-wide platform state: the main board once `mraa_init`
    has detected it, an optional chained sub board, and which of the two the
    platform-info calls answer for. Detection itself happens outside this
    model; `Init` receives its outcome.
   */
  class Registry {
    var main: Option<BoardInfo>
    var sub: Option<BoardInfo>
    var selected: Side

    ghost predicate Valid()
      reads this
    {
      && (main.None? ==> sub.None?)
      && (selected == SubSide ==> sub.Some?)
    }

    constructor ()
      ensures Valid() && main.None? && sub.None? && selected == MainSide
    {
      main, sub, selected := None, None, MainSide;
    }

    /**
      `mraa_init`: success the first time, with the detected boards loaded and
      the main board selected; "already initialised", changing nothing, on every
      later call.
     */
    method Init(detected: BoardInfo, detectedSub: Option<BoardInfo>) returns (r: MraaResult)
      requires Valid()
      modifies this
      ensures Valid()
      ensures old(main).Some? ==> r == ErrorPlatformAlreadyInitialised && unchanged(this)
      ensures old(main).None? ==> r == Success && main == Some(detected) && sub == detectedSub && selected == MainSide
    {
      if main.Some? {
        return ErrorPlatformAlreadyInitialised;
      }
      main, sub, selected := Some(detected), detectedSub, MainSide;
      r := Success;
    }

    /** `mraa_deinit`: back to the uninitialised state, so that `Init` succeeds again. */
    method Deinit()
      requires Valid()
      modifies this
      ensures Valid() && main.None? && sub.None? && selected == MainSide
    {
      main, sub, selected := None, None, MainSide;
    }

    /** `mraa_select_main_platform`: 1 if the main board is available, 0 otherwise. */
    method SelectMainPlatform() returns (ok: bool)
      requires Valid()
      modifies this
      ensures Valid() && main == old(main) && sub == old(sub)
      ensures ok <==> main.Some?
      ensures selected == if ok then MainSide else old(selected)
    {
      ok := main.Some?;
      if ok {
        selected := MainSide;
      }
    }

    /** `mraa_select_sub_platform`: 1 if a sub board is available, 0 otherwise. */
    method SelectSubPlatform() returns (ok: bool)
      requires Valid()
      modifies this
      ensures Valid() && main == old(main) && sub == old(sub)
      ensures ok <==> sub.Some?
      ensures selected == if ok then SubSide else old(selected)
    {
      ok := sub.Some?;
      if ok {
        selected := SubSide;
      }
    }

    /** `mraa_is_sub_platform_selected`: 1 only when a sub board is both available and selected. */
    method IsSubPlatformSelected() returns (b: bool)
      ensures b <==> sub.Some? && selected == SubSide
    {
      b := sub.Some? && selected == SubSide;
    }

    /** `mraa_adc_raw_bits`: the raw ADC resolution of the main board, zero when it has no ADC. */
    method AdcRawBits() returns (bits: nat)
      ensures main.None? || main.value.aioCount == 0 ==> bits == 0
      ensures main.Some? && main.value.aioCount > 0 ==> bits == main.value.adcRaw
    {
      if main.None? || main.value.aioCount == 0 {
        return 0;
      }
      bits := main.value.adcRaw;
    }

    /** `mraa_adc_supported_bits`: the resolution values are reported at, zero when there is no ADC. */
    method AdcSupportedBits() returns (bits: nat)
      ensures main.None? || main.value.aioCount == 0 ==> bits == 0
      ensures main.Some? && main.value.aioCount > 0 ==> bits == main.value.adcSupported
    {
      if main.None? || main.value.aioCount == 0 {
        return 0;
      }
      bits := main.value.adcSupported;
    }
  }

  /** Calling `mraa_init` twice: the first call succeeds, the second reports "already initialised". */
  method InitTwice(detected: BoardInfo) returns (first: MraaResult, second: MraaResult)
    ensures first == Success && second == ErrorPlatformAlreadyInitialised
  {
    var registry := new Registry();
    first := registry.Init(detected, None);
    second := registry.Init(detected, None);
  }

  /** Without a chained board, selecting the sub platform fails and the main board stays selected. */
  method SelectSubWithoutSubBoard(detected: BoardInfo) returns (ok: bool, subSelected: bool)
    ensures !ok && !subSelected
  {
    var registry := new Registry();
    var _ := registry.Init(detected, None);
    ok := registry.SelectSubPlatform();
    subSelected := registry.IsSubPlatformSelected();
  }
}
