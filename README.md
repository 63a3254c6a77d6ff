# mraa core: sub-platform codec, IIO scan and the Intel Joule expansion board

This project models three parts of mraa, the low-level I/O library for Linux boards. It is written in Dafny and proves properties of each part.

- **Sub-platform codec and platform registry** (`api/mraa/common.h`). A pin or bus number addresses the sub-platform (a second board, such as a Firmata or FTDI bridge) when bit 9 (`MRAA_SUB_PLATFORM_MASK`, 512) is set.
  - `mraa_use_sub_platform`, `mraa_is_on_sub_platform` and `mraa_get_sub_platform_index` set, test and clear that bit. They are modelled as functions on `Int32`, with round-trip lemmas.
  - The platform registry is modelled as a class with `mraa_init`, `mraa_deinit` and main/sub platform selection. Its ADC queries read the main board, whichever side is selected.
- **IIO device scan** (`src/iio/iio.c`).
  - `mraa_iio_get_channel_data` counts the `*_en` entries of a device's `scan_elements` directory. It then reads each `*_index`, `*_type` and `*_en` attribute and places every channel in the sample buffer. Three pieces are modelled:
    - specification functions on the directory listing and the attribute contents (`IioLayout.ChannelScan`);
    - the method that fills the calloc'ed array entry by entry (`Iio.FillChannels`);
    - layout lemmas: channels are aligned, inside `datasize`, and never overlap.
  - `mraa_iio_get_event_data` is modelled the same way, over the `events` directory.
  - `mraa_iio_get_device_num_by_name` is modelled as a search loop.
  - The device-number check of `mraa_iio_init` is modelled as well.
- **Intel Joule expansion board** (`src/x86/intel_joule_expansion.c`). `mraa_joule_expansion_board` is modelled as a builder. It sets the board's identity, I2C, SPI and UART tables, then the shield ADC, then the physical pin table.
  - Every outcome of the environment is a parameter (`Joule.Probes`): the PCI I2C bus probes, the `/dev/i2c-0` test, the designware bus number and the shell commands that detect the ADC shield.
  - `get_valid_fp` is modelled through the `/sys/bus/iio/devices/iio:device<c/4>/in_voltage<c%4>_raw` path, which is shown to be injective.

Supporting modules:

- `Wrappers` holds `Option`.
- `Decimal` holds the `%d` printing, and the `strtol` and `%u` scanning that the paths and attributes go through, with their round trips.
- `Board` holds the board descriptor and pin records that the builder fills in.

## Model

| member | source | states |
|---|---|---|
| Common.SubPlatformMaskValue | api/mraa/common.h:32-33 | the sub-platform marker is bit 9, i.e. 512 |
| Common.IsOnSubPlatform | api/mraa/common.h:212-219 | a number is on the sub-platform exactly when its bit 9 is set |
| Common.UseSubPlatform | api/mraa/common.h:221-228 | the result is on the sub-platform and keeps every other bit of the input (bits below 9 and above 9) |
| Common.GetSubPlatformIndex | api/mraa/common.h:230-237 | the result is not on the sub-platform and keeps every other bit of the input |
| Common.SubPlatformRoundTrip | api/mraa/common.h:221-237 | a main-platform index below 512 is encoded to a sub-platform number and decoded back to itself |
| Common.DecodeEncode | api/mraa/common.h:221-237 | for any number without the marker, decoding its encoding gives it back |
| Common.EncodeDecode | api/mraa/common.h:221-237 | for any number with the marker, encoding its decoding gives it back |
| Common.UseSubPlatformIdempotent | api/mraa/common.h:221-228 | marking twice is the same as marking once |
| Common.SubPlatformExample | api/mraa/common.h:221-237 | pin 3 becomes 515 on the sub-platform and decodes back to 3 |
| Common.Registry.Init | api/mraa/common.h:52-69 | the first init records the detected board and any sub board and returns success; a second init returns "platform already initialised" and changes nothing |
| Common.Registry.Deinit | api/mraa/common.h:72-79 | after deinit no main or sub board is recorded |
| Common.Registry.SelectMainPlatform | api/mraa/common.h:191-196 | selection succeeds exactly when a main board exists, and the side changes only then |
| Common.Registry.SelectSubPlatform | api/mraa/common.h:198-203 | selection succeeds exactly when a sub board exists, and the side changes only then |
| Common.Registry.IsSubPlatformSelected | api/mraa/common.h:205-210 | true exactly when a sub board exists and the sub side is selected |
| Common.Registry.AdcRawBits | api/mraa/common.h:90-95 | 0 without a board or without analog inputs, otherwise the board's raw ADC resolution |
| Common.Registry.AdcSupportedBits | api/mraa/common.h:97-102 | 0 without a board or without analog inputs, otherwise the board's supported ADC resolution |
| Common.InitTwice | api/mraa/common.h:52-69 | initialising twice gives success and then "platform already initialised" |
| Common.SelectSubWithoutSubBoard | api/mraa/common.h:198-210 | with no sub board, selecting the sub side fails and the sub side is not selected |
| Decimal.StrToLOfNatToString | src/iio/iio.c:104 | `strtol` reads back a printed natural number followed by a non-digit or nothing |
| Decimal.ScanPrinted2First | src/x86/intel_joule_expansion.c:51 | in a text printed as prefix, number, separator, number, suffix, scanning at the first number reads it back and stops where it ends |
| Decimal.ScanPrinted2Second | src/x86/intel_joule_expansion.c:51 | scanning at the second number of such a text reads it back |
| Decimal.Printed2Injective | src/x86/intel_joule_expansion.c:51 | two such texts with the same fixed parts are equal only when both numbers are equal |
| IioLayout.CountSuffixAppend | src/iio/iio.c:86-92 | counting `*_en` entries one at a time adds one exactly for a name with the suffix |
| IioLayout.FilterSuffixFromListing | src/iio/iio.c:316-320 | every name kept by the `_en` filter is an entry of the directory listing |
| IioLayout.CString | src/iio/iio.c:104 | a C string read from the 32-byte `readbuf` is the buffer's prefix up to its first NUL: it holds no NUL, and a NUL follows it unless it is the whole buffer |
| IioLayout.CStringAppend | src/iio/iio.c:104 | NUL-free bytes in front of a buffer are read in full, followed by the C string of the rest |
| IioLayout.TwoByteValueOfDigit | src/iio/iio.c:101-104 | a one-digit `_index` or `_en` attribute followed by a newline reads back as that digit, whatever the buffer held before |
| IioLayout.TypeTextPrefix | src/iio/iio.c:115-116 | a NUL-free type attribute of at most 31 bytes is seen by sscanf followed by whatever stale bytes of the buffer come after it up to a NUL |
| IioLayout.TypeTextOfFormat | src/iio/iio.c:115-118 | every well-formed type attribute with its newline scans in full with count 5 from the buffer, whatever stale bytes follow it |
| IioLayout.EmptyTypeReadsStaleBuffer | src/iio/iio.c:101-131 | an empty `_type` read after an `_index` read of "0\n" scans one conversion (endianness `0`) from the stale buffer, so the scan goes on instead of failing |
| IioLayout.Snprintf | src/iio/iio.c:98 | a snprintf into a MAX_SIZE buffer keeps a prefix shorter than MAX_SIZE, and the whole text when it fits |
| IioLayout.ChannelPathsReplaceIndex | src/iio/iio.c:98-113 | when the `_index` path fits, cutting 5 characters and appending `type` or `en` gives the channel's `_type` and `_en` paths |
| IioLayout.ScanType | src/iio/iio.c:116-118 | sscanf returns -1 exactly on empty input and otherwise a conversion count of 1 to 5; the endianness is the first character, and the sign is read only after a literal `e:` |
| IioLayout.ScanTypeOfFormat | src/iio/iio.c:116-118 | every well-formed type attribute `[bl]e:[su]bits/storage>>shift`, with or without a trailing newline, is read back in full with count 5 |
| IioLayout.ScanTypeExample | src/iio/iio.c:116-118 | `le:s12/16>>4\n` scans to little-endian, signed, 12 bits, storage 16, shift 4 |
| IioLayout.AlignUp | src/iio/iio.c:120-124 | the channel offset is a multiple of its width, at least the bytes in use, and less than a width above them |
| IioLayout.AlignUpLeast | src/iio/iio.c:120-124 | the offset is the least multiple of the width not below the bytes in use |
| IioLayout.Mask | src/iio/iio.c:135-139 | the mask has exactly its low `bits_used` bits set (all 64 for 64) |
| IioLayout.TypeStepFields | src/iio/iio.c:112-140 | the read overwrites the front of `readbuf` (an empty read leaves it as it was); the step fails with MRAA_IO_SETUP_FAILURE exactly when the buffer then starts with NUL; otherwise the endianness is the buffer's first byte, the sign is its fourth after `e:`, the mask has the low `bits_used` bits, and other channels are untouched |
| IioLayout.TypeStepOfFullScan | src/iio/iio.c:112-140 | a fully scanned attribute sets bits, shift, width storage/8, aligned offset, sign, endianness and mask of that channel |
| IioLayout.ChannelScanLayout | src/iio/iio.c:69-161 | after the scan there is one channel per `*_en` entry; every placed channel is aligned to its width and ends within `datasize`; no two placed channels overlap; with nothing placed, `datasize` is 0 |
| IioLayout.RunChannelsLength | src/iio/iio.c:96-156 | the channel table keeps the size counted in the first pass |
| IioLayout.EventStepNamed | src/iio/iio.c:318-331 | an `_en` entry names the next event slot, leaves the other slots alone, and advances the slot counter unless the read broke off |
| IioLayout.EventStepKeeps | src/iio/iio.c:316-333 | one entry keeps the scan's invariant: named slots follow the `_en` entries so far, later slots are as calloc left them |
| IioLayout.RunEventsNames | src/iio/iio.c:316-333 | the event loop names event slots with the `*_en` entries in listing order; if it does not break, every slot is named |
| IioLayout.EventScanNames | src/iio/iio.c:297-333 | one event per `*_en` entry; each slot is unnamed or named by the matching entry, and all are named when no read breaks the loop |
| Iio.IioDevice.GetChannelData | src/iio/iio.c:69-161 | the channel count is the number of `*_en` entries; the new channel array is the table of the scan that threads `readbuf` from the given initial contents; on failure the scan's error code is returned and datasize is left alone; otherwise success and datasize is the bytes in use |
| Iio.FillChannels | src/iio/iio.c:96-156 | filling the zeroed array entry by entry, with one `readbuf` carried across all reads, yields the scan's channel table, phase and bytes in use |
| Iio.ScanEntry | src/iio/iio.c:97-152 | one directory entry updates the array and every local, `readbuf` included, as one step of the scan |
| Iio.TypeEntry | src/iio/iio.c:112-140 | the type attribute is read into `readbuf` and scanned from it; the array and locals change as in the type step, and failure is reported exactly when the step fails |
| Iio.CountEnabled | src/iio/iio.c:86-92 | the first pass counts the `*_en` entries, which is the number of names the `_en` filter keeps |
| Iio.IioDevice.GetEventData | src/iio/iio.c:284-337 | returns success; the channel fields are unchanged; without an events directory nothing changes; otherwise the event count is the number of `*_en` entries and the new array is the event scan's table |
| Iio.FillEvents | src/iio/iio.c:316-333 | filling the zeroed array yields the event scan's table, including the early stop on a short read |
| Iio.EventEntry | src/iio/iio.c:318-331 | one directory entry updates the array, slot counter and read buffer as one event step, and reports the break |
| Iio.IioPlatform.Init | src/iio/iio.c:38-54 | a device number inside the table gives that device with its channel and event data scanned: the channel count and table of the scan; `datasize` (what `mraa_iio_read_size` returns) the bytes in use, or unchanged when the scan failed; the event count and table when the events directory opens, and the events unchanged when it does not. Any other number gives null |
| Iio.InitAdmitsOnePastEnd | src/iio/iio.c:41 | the check as written admits the device number equal to the device count, and -1, neither of which indexes the table |
| Iio.DeviceNumByName | src/iio/iio.c:169-194 | -1 with no platform or no name; otherwise the number of the first device with exactly that name, or -1 when none has it |
| Joule.ProbeBus | src/x86/intel_joule_expansion.c:86-127 | a found probe records its bus number with that probe's SDA and SCL pins |
| Joule.ProbedBuses | src/x86/intel_joule_expansion.c:86-127 | the table holds one bus per successful probe |
| Joule.ProbedPlacement | src/x86/intel_joule_expansion.c:86-127 | the k-th probe, when found, sits in the table after exactly the found probes before it |
| Joule.FoundMonotone | src/x86/intel_joule_expansion.c:86-127 | probing more buses never finds fewer |
| Joule.ProbedFromProbe | src/x86/intel_joule_expansion.c:86-127 | every table entry comes from a successful probe, in probe order |
| Joule.FallbackBuses | src/x86/intel_joule_expansion.c:128-156 | the fallback is three buses: 0, then 5 and 6 when the designware lookup gives 5, else 9 and 10 |
| Joule.FallbackOnlyWhenNothingFound | src/x86/intel_joule_expansion.c:86-156 | the fallback replaces the probed table exactly when no probe succeeded and `/dev/i2c-0` exists; with neither, there are no buses |
| Joule.FallbackPins | src/x86/intel_joule_expansion.c:134-153 | the fallback buses use the pins of probes 0, 3 and 4 |
| Joule.DefaultBusOfTable | src/x86/intel_joule_expansion.c:158 | the default bus is the first probe's bus when it was found, and 0 when no probe succeeded |
| Joule.DetectShield | src/x86/intel_joule_expansion.c:182-271 | DFRobot exactly when the first probe, the bus open, 0x49, the modprobe and both ADC adds succeed; Grove exactly when the first probe, the bus open, 0x48 without 0x49, the modprobe and the first add succeed; otherwise no shield |
| Joule.Adc | src/x86/intel_joule_expansion.c:216-252 | there are no analog inputs exactly without a shield; at most 8; a shield gives 10 supported bits, never more than raw |
| Joule.ProbeShield | src/x86/intel_joule_expansion.c:182-271 | the board gets the detected shield's analog count and ADC resolutions, with the valid-fp override only for DFRobot |
| Joule.HeaderPin | src/x86/intel_joule_expansion.c:287-800 | a header pin carries its record's name, capabilities and gpio, pwm, i2c and uart pinmaps, and no mux |
| Joule.LedPin | src/x86/intel_joule_expansion.c:807-841 | an LED pin is gpio-only with its gpio number and no mux |
| Joule.AioName | src/x86/intel_joule_expansion.c:845-889 | the k-th analog input is named `A` followed by the digit k |
| Joule.AioPin | src/x86/intel_joule_expansion.c:845-889 | the k-th analog pin has that name, only the aio capability and aio pinmap k |
| Joule.PinTableLayout | src/x86/intel_joule_expansion.c:281-841 | pin 0 is the capability-less "INVALID"; pins 81 to 99 are empty; pins 100 to 105 are gpio-only LEDs; no pin needs a mux |
| Joule.ShieldPinLayout | src/x86/intel_joule_expansion.c:843-899 | shield pin 106+k is analog input Ak; DFRobot and Grove agree on the first four |
| Joule.GroveCase | src/x86/intel_joule_expansion.c:867-889 | the Grove case names A0 to A3 with pinmaps 0 to 3 and leaves the following slots as they were |
| Joule.DfRobotNamesAsWritten | src/x86/intel_joule_expansion.c:845-865 | as written, the DFRobot case leaves slot 5 named "A7" and slot 7 unnamed |
| Joule.WriteShieldPins | src/x86/intel_joule_expansion.c:843-899 | the shield's analog pins are A0 to A(n-1) in order, and no other pin changes |
| Joule.WriteAioPin | src/x86/intel_joule_expansion.c:845-889 | one analog pin gets its name, aio capability and pinmap, and no other pin changes |
| Joule.WriteHeader | src/x86/intel_joule_expansion.c:287-800 | pins 1 to 80 are the header records, and no other pin changes |
| Joule.WriteHeaderPin | src/x86/intel_joule_expansion.c:287-800 | one header pin is written from its record, and no other pin changes |
| Joule.PadToLeds | src/x86/intel_joule_expansion.c:802-805 | the position advances to 100 over the empty pins without changing any pin |
| Joule.WriteLeds | src/x86/intel_joule_expansion.c:807-841 | pins 100 to 105 are the six LEDs, and no other pin changes |
| Joule.WriteLed | src/x86/intel_joule_expansion.c:807-841 | one LED pin gets its name, gpio capability and gpio number, and no other pin changes |
| Joule.FillPins | src/x86/intel_joule_expansion.c:281-899 | a zeroed pin array becomes the board's pin table for the detected shield |
| Joule.ProbeI2cBuses | src/x86/intel_joule_expansion.c:86-156 | the probe loop yields the I2C table: the found buses, or the fallback |
| Joule.JouleDescriptor | src/x86/intel_joule_expansion.c:62-901 | the board is named for the Joule expansion with `base` gpios; it has at most 5 I2C buses, 5 SPI buses and 2 UARTs; the pin count is base plus the analog inputs; supported ADC bits never exceed raw; the valid-fp override is set exactly with 8 analog inputs |
| Joule.SetIdentity | src/x86/intel_joule_expansion.c:79-84 | sets the platform name, gpio count and pwm periods, and nothing else |
| Joule.SetI2cBuses | src/x86/intel_joule_expansion.c:86-158 | sets the I2C table and its default bus, and nothing else |
| Joule.SetSpiUart | src/x86/intel_joule_expansion.c:160-180 | sets the five SPI buses and two UARTs with default 0, and nothing else |
| Joule.SetPins | src/x86/intel_joule_expansion.c:274-899 | allocates a pin array of the physical pin count, fills it as the pin table and sets only the pin count |
| Joule.JouleExpansionBoard | src/x86/intel_joule_expansion.c:62-901 | a fresh board whose fields are the descriptor for the probes, with a pin array as long as the physical pin count holding the pin table of the detected shield |
| Joule.AioRawPath | src/x86/intel_joule_expansion.c:51 | every 32-bit channel's raw-value path fits the 64-byte buffer, so it is never truncated |
| Joule.GetValidFp | src/x86/intel_joule_expansion.c:45-60 | success exactly when the channel's raw-value file opens, otherwise invalid resource |
| Joule.AioRawPathInjective | src/x86/intel_joule_expansion.c:51 | two channels never share a raw-value path |
| Joule.RawPathDevice | src/x86/intel_joule_expansion.c:51 | the device number can be read back from the path |
| Joule.RawPathInput | src/x86/intel_joule_expansion.c:51 | a one-digit input number can be read back from after `/in_voltage` |
| Joule.RawPathInjective | src/x86/intel_joule_expansion.c:51 | the path determines both the device and the input |

## Left out

- Hardware and the operating system are parameters. Directory listings (`Option<seq<string>>`, `None` when `opendir` fails) and attribute files (`map<string, string>`, path to contents) stand in for sysfs. Path existence is a set of openable paths. `open`, `read`, `close`, `syslog`, `free` and `strdup` are not modelled beyond what they contribute.
- Iio.IioDevice.GetChannelData: requires a readable `scan_elements` directory, because the source goes on to `seekdir`/`readdir` a NULL directory when `opendir` fails.
- Iio.IioDevice.GetChannelData: requires `ChannelScanSafe`, which states the hazards the source does not check:
  - names tested for `_en` or `_index` are at least that long (the source reads before the name otherwise);
  - the index read from `*_index` is inside the channel array;
  - `storage / 8` is positive (a zero is a division by zero at iio.c:120);
  - `bits_used` is below 31 or exactly 64 (a larger shift of a C `int` is undefined at iio.c:138).
- Iio.IioDevice.GetEventData: requires names of at least 3 characters for the `_en` test.
- Iio.IioDevice.GetEventData: does not model the `MRAA_ERROR_UNSPECIFIED` return when `calloc` fails. No allocation failure is modelled anywhere.
- Iio.IioDevice.GetEventData: an `open` that returns 0 counts as not opened (`fd > 0`); the model treats every file in the map as opened with a positive descriptor.
- Iio.IioDevice.GetChannelData: the stack buffer `readbuf` is a 32-character value threaded through every read, not an array. A read overwrites its front and keeps the stale rest. Its uninitialised initial contents, and those of `shortbuf`/`signchar`, are parameters. When no NUL is in the 32 bytes, `strtol` and sscanf are modelled as stopping at the buffer's end, where the source reads past it.
- Iio.IioDevice.GetEventData: the event scan's `readbuf` is threaded the same way, with its own initial contents; a skipped read leaves it as it was.
- Iio.IioPlatform.Init: does not model reading the device name from sysfs or the platform's allocation. The device table is given.
- IioLayout.ScanType: models the `%c`, `e:`, `%c` and three `%u` conversions of the sscanf, including the leading white space each `%u` skips. It does not model the optional `+` or `-` sign a `%u` accepts (in the model a sign there is a matching failure, which ends the scan at that conversion), or a `%u` that wraps a value beyond 32 bits.
- Decimal.StrToL: returns the value of the digits without bound. The source's `strtol` saturates at LONG_MAX and LONG_MIN and its result is cast to `int` (iio.c:104, 150, 329), so a value beyond 32 bits, which stale digits in `readbuf` can produce, is not clamped or truncated in the model.
- IioLayout.ChannelScan: `padint`, `curr_bytes` and the channel's `location` and `bytes` are unbounded naturals. In the source `padint` is an `int` filled by `%u` (iio.c:79, 116), so a storage value from 2^31 to 2^32 - 1 becomes negative and `padint / 8` (iio.c:119) truncates toward zero. `curr_bytes` is an `int` and `location` is unsigned (iio.c:80, 121-125), so both can overflow. The alignment, no-overlap and `datasize` facts of `IioLayout.ChannelScanLayout` are therefore proved only for scans whose values stay inside those widths.
- Raw sample reads, triggers, buffers, event polling and the threads of the IIO API are not part of the modelled core.
- Joule.JouleExpansionBoard: the C code's `pincount` constant and the `gpio_count` derived from it are the parameter `base` (at least 106, so the LEDs fit).
- Joule.JouleExpansionBoard: the I2C probe helpers (`mraa_find_i2c_bus_pci`, `mraa_file_exist`, `mraa_find_i2c_bus`) become the results in `Probes`.
- Joule.JouleExpansionBoard: the `system()` commands that load the ADC driver and probe the shield become booleans. The commands that only set the sampling frequency and scale have no outcome the code checks, so they are not modelled.
- Joule.JouleExpansionBoard: does not model failures of the `calloc` of the board, its pins and its `adv_func`, which the source returns NULL for.
- Joule.JouleExpansionBoard: the builder is split into stages (identity, I2C, SPI and UART, shield, pins) that assign the same fields in the same order.
- Joule.JouleExpansionBoard: the I2C table is built as a sequence and then stored, where the source writes it in place.
- Joule.FillPins: for a DFRobot shield the pin table holds the corrected names (A5 at shield slot 5, A7 at slot 7), not the names as written at intel_joule_expansion.c:862; `Joule.DfRobotNamesAsWritten` states the as-written ones.
- Joule.JouleExpansionBoard: for a DFRobot shield the pin table is the corrected one of `Joule.FillPins`, as above.
- Joule.WriteHeader: the 80 straight-line header pin blocks are a loop over a table of pin records (`HeaderRecord`), one record per block.
- Joule.GetValidFp: the channel is an `unsigned int`, so below 2^32. The aio context and the descriptor the source stores in its `adc_in_fp` are not modelled; only whether the file opens is.
- The platform detection and the bodies of the other board files behind `mraa_init` are not part of the modelled core. The registry records whichever board detection reports.

## Findings

| source | as written | input that shows it | evidently intended | confidence | as-written member | corrected member |
|---|---|---|---|---|---|---|
| src/iio/iio.c:41 | `mraa_iio_init` rejects a device only when `device > iio_device_count` | device equal to the device count, or any negative device such as -1: the check lets it through and the table is indexed out of bounds | accept exactly `0 <= device < iio_device_count` | not executed | Iio.InitAdmitsOnePastEnd | Iio.IioPlatform.Init |
| src/x86/intel_joule_expansion.c:862 | the DFRobot case writes the name "A7" into the slot at `pos + 5` | a DFRobot shield: pin 111 is named "A7" with aio pinmap 5, and pin 113 has aio pinmap 7 and no name | "A5" at `pos + 5` and "A7" at `pos + 7` | not executed | Joule.DfRobotNamesAsWritten | Joule.WriteShieldPins |
