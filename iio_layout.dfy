/**
  The pure part of src/iio/iio.c: how one IIO device's `scan_elements`
  directory is turned into channel records and a sample-buffer layout, and how
  its `events` directory is turned into event records.

  The type attribute of a channel follows the Linux IIO sysfs ABI
  (`scan_elements/<channel>_type`): `[be|le]:[s|u]<bits>/<storagebits>>><shift>`,
  for example `le:s12/16>>4`. The directory listing and the file contents are
  inputs: a listing is the sequence of names readdir returns, and the files are
  a map from path to contents, a path that is absent being one that open() fails on.
 */
module IioLayout {

  import opened Wrappers
  import opened Decimal
  import opened Common

  const MaxSize: nat := 128
  const SysfsDevice: string := "/sys/bus/iio/devices/iio:device"

  // ---------------------------------------------------------------------
  // Names and paths
  // ---------------------------------------------------------------------

  /**
    `strcmp(name + strlen(name) - strlen(suffix), suffix) == 0`. The pointer
    arithmetic is only defined when the name is at least as long as the suffix,
    so callers must establish that.
   */
  predicate HasSuffix(name: string, suffix: string)
    requires |name| >= |suffix|
  {
    name[|name| - |suffix|..] == suffix
  }

  /** Every name of a listing is long enough for the suffix test at iio.c:87 and iio.c:302. */
  predicate NamesAtLeast(entries: seq<string>, n: nat) {
    forall i :: 0 <= i < |entries| ==> |entries[i]| >= n
  }

  /** The number of names ending in `suffix`: `chan_num` and `event_num` after the counting pass. */
  function CountSuffix(entries: seq<string>, suffix: string): nat
    requires NamesAtLeast(entries, |suffix|)
  {
    if entries == [] then 0
    else (if HasSuffix(entries[0], suffix) then 1 else 0) + CountSuffix(entries[1..], suffix)
  }

  /** Counting entry by entry, as the first pass does. */
  lemma {:induction false} CountSuffixAppend(entries: seq<string>, e: string, suffix: string)
    requires NamesAtLeast(entries, |suffix|) && |e| >= |suffix|
    ensures NamesAtLeast(entries + [e], |suffix|)
    ensures CountSuffix(entries + [e], suffix) == CountSuffix(entries, suffix) + (if HasSuffix(e, suffix) then 1 else 0)
  {
    var all := entries + [e];
    assert NamesAtLeast(all, |suffix|) by {
      forall i | 0 <= i < |all| ensures |all[i]| >= |suffix| {
        if i < |entries| {
          assert all[i] == entries[i];
        }
      }
    }
    if entries != [] {
      assert all[1..] == entries[1..] + [e];
      CountSuffixAppend(entries[1..], e, suffix);
    }
  }

  /** The names ending in `suffix`, in listing order. */
  function FilterSuffix(entries: seq<string>, suffix: string): (r: seq<string>)
    requires NamesAtLeast(entries, |suffix|)
    ensures |r| == CountSuffix(entries, suffix)
    ensures forall i :: 0 <= i < |r| ==> |r[i]| >= |suffix| && HasSuffix(r[i], suffix)
  {
    if entries == [] then []
    else (if HasSuffix(entries[0], suffix) then [entries[0]] else []) + FilterSuffix(entries[1..], suffix)
  }

  /** Every name the filter keeps is in the listing, so it is a name the directory has. */
  lemma {:induction false} FilterSuffixFromListing(entries: seq<string>, suffix: string, j: nat)
    requires NamesAtLeast(entries, |suffix|)
    requires j < |FilterSuffix(entries, suffix)|
    ensures exists i :: 0 <= i < |entries| && entries[i] == FilterSuffix(entries, suffix)[j]
  {
    assert entries != [];
    var rest := FilterSuffix(entries[1..], suffix);
    if HasSuffix(entries[0], suffix) {
      if j == 0 {
        assert entries[0] == FilterSuffix(entries, suffix)[0];
      } else {
        FilterSuffixFromListing(entries[1..], suffix, j - 1);
        var i :| 0 <= i < |entries[1..]| && entries[1..][i] == rest[j - 1];
        assert entries[i + 1] == FilterSuffix(entries, suffix)[j];
      }
    } else {
      FilterSuffixFromListing(entries[1..], suffix, j);
      var i :| 0 <= i < |entries[1..]| && entries[1..][i] == rest[j];
      assert entries[i + 1] == FilterSuffix(entries, suffix)[j];
    }
  }

  /** `snprintf(buf, MAX_SIZE, ...)` keeps at most MAX_SIZE - 1 characters. */
  function Snprintf(s: string): (r: string)
    ensures |r| < MaxSize && r <= s
    ensures |s| < MaxSize ==> r == s
  {
    if |s| < MaxSize then s else s[..MaxSize - 1]
  }

  function ScanElementsDir(num: int): string {
    SysfsDevice + IntToString(num) + "/scan_elements"
  }

  function EventsDir(num: int): string {
    SysfsDevice + IntToString(num) + "/events"
  }

  /** The path of a scan element file, as iio.c:98 writes it into `buf`. */
  function ScanElementPath(num: int, name: string): string {
    Snprintf(ScanElementsDir(num) + "/" + name)
  }

  function EventPath(num: int, name: string): string {
    Snprintf(EventsDir(num) + "/" + name)
  }

  /**
    `buf[strlen(buf) - 5] = '\0'` at iio.c:109: the `_index` path cut before its
    last five characters, which leaves it ending in `_`.
   */
  function ChannelStem(indexPath: string): string
    requires |indexPath| >= 5
  {
    indexPath[..|indexPath| - 5]
  }

  function TypePath(stem: string): string {
    Snprintf(stem + "type")
  }

  function EnablePath(stem: string): string {
    Snprintf(stem + "en")
  }

  /**
    When the `_index` path fits the buffer, the type and enable paths are that
    path with its trailing `index` replaced by `type` and by `en`.
   */
  lemma ChannelPathsReplaceIndex(num: int, name: string)
    requires |name| >= 6 && HasSuffix(name, "_index")
    requires |ScanElementsDir(num) + "/" + name| < MaxSize
    ensures var p := ScanElementPath(num, name);
      && p == ScanElementsDir(num) + "/" + name[..|name| - 5] + "index"
      && TypePath(ChannelStem(p)) == ScanElementsDir(num) + "/" + name[..|name| - 5] + "type"
      && EnablePath(ChannelStem(p)) == ScanElementsDir(num) + "/" + name[..|name| - 5] + "en"
  {
    var d := ScanElementsDir(num) + "/";
    var p := ScanElementPath(num, name);
    assert name == name[..|name| - 5] + "index";
    assert p == d + name[..|name| - 5] + "index";
    assert ChannelStem(p) == d + name[..|name| - 5];
  }

  // ---------------------------------------------------------------------
  // The type attribute: sscanf(readbuf, "%ce:%c%u/%u>>%u", ...)
  // ---------------------------------------------------------------------

  /**
    What sscanf reports: the number of conversions made (-1 when the input is
    empty) and the converted values. A field beyond `count` was not assigned
    and holds a placeholder that no caller reads.
   */
  datatype TypeScan = TypeScan(count: int, endian: char, sign: char, bits: nat, storage: nat, shift: nat)

  // ---------------------------------------------------------------------
  // The stack buffer `char readbuf[32]`
  // ---------------------------------------------------------------------

  const ReadBufSize: nat := 32

  /** The 32 characters of `readbuf`; a NUL is `'\0'`. */
  type ReadBuf = s: string | |s| == ReadBufSize witness seq(ReadBufSize, _ => '\0')

  /**
    `read(fd, readbuf, n)` on a file holding `content`: the bytes read replace
    the front of the buffer and the rest of it keeps what earlier reads (or
    the uninitialised stack) left there. No NUL is written after them.
   */
  function ReadInto(buf: ReadBuf, content: string, n: nat): (r: ReadBuf)
    requires n <= ReadBufSize
  {
    var k := if |content| < n then |content| else n;
    content[..k] + buf[k..]
  }

  /** The C string a buffer holds, as strtol and sscanf see it: its characters up to the first NUL. */
  function CString(buf: string): (r: string)
    ensures r <= buf && '\0' !in r
    ensures |r| < |buf| ==> buf[|r|] == '\0'
  {
    if buf == [] || buf[0] == '\0' then [] else [buf[0]] + CString(buf[1..])
  }

  /** A NUL-free front passes into the C string whole. */
  lemma {:induction false} CStringAppend(a: string, b: string)
    requires '\0' !in a
    ensures CString(a + b) == a + CString(b)
  {
    if a == [] {
      assert a + b == b;
    } else {
      assert a[0] in a && (a + b)[0] == a[0];
      assert (a + b)[1..] == a[1..] + b;
      CStringAppend(a[1..], b);
      assert a == [a[0]] + a[1..];
    }
  }

  /** `read(fd, readbuf, 2)` followed by `strtol(readbuf, NULL, 10)` (iio.c:101-104, :146-149, :322-329). */
  function TwoByteValue(buf: ReadBuf, content: string): int {
    StrToL(CString(ReadInto(buf, content, 2)))
  }

  /**
    A one-digit attribute with its newline (or any non-digit after the digit)
    reads back as that digit, whatever the buffer held before.
   */
  lemma TwoByteValueOfDigit(buf: ReadBuf, n: nat, tail: string)
    requires n < 10 && tail != [] && !IsDigit(tail[0])
    ensures TwoByteValue(buf, NatToString(n) + tail) == n
  {
    var content := NatToString(n) + tail;
    assert NatToString(n) == [DigitChar(n)];
    var r := ReadInto(buf, content, 2);
    assert r == [DigitChar(n), tail[0]] + buf[2..];
    if tail[0] == '\0' {
      assert CString(r) == [DigitChar(n)] by {
        assert r[1..][0] == '\0';
      }
      StrToLOfNatToString(n, []);
      assert NatToString(n) + [] == [DigitChar(n)];
    } else {
      CStringAppend([DigitChar(n), tail[0]], buf[2..]);
      assert CString(r) == NatToString(n) + ([tail[0]] + CString(buf[2..]));
      StrToLOfNatToString(n, [tail[0]] + CString(buf[2..]));
    }
  }

  /** `read(fd, readbuf, 31)` followed by sscanf: the text the type scan sees (iio.c:115-118). */
  function TypeText(buf: ReadBuf, content: string): string {
    CString(ReadInto(buf, content, 31))
  }

  function ScanType(s: string): (r: TypeScan)
    ensures r.count == -1 <==> s == []
    ensures r.count in {-1, 1, 2, 3, 4, 5}
    ensures r.count >= 1 ==> r.endian == s[0]
    ensures r.count >= 2 ==> |s| >= 4 && s[1] == 'e' && s[2] == ':' && r.sign == s[3]
  {
    if s == [] then TypeScan(-1, ' ', ' ', 0, 0, 0)
    else if !(|s| >= 4 && s[1] == 'e' && s[2] == ':') then TypeScan(1, s[0], ' ', 0, 0, 0)
    else ScanBits(s[4..], s[0], s[3])
  }

  /** The conversions after `%ce:%c`, on the rest of the input: the used bits. */
  function ScanBits(t: string, endian: char, sign: char): (r: TypeScan)
    ensures 2 <= r.count <= 5 && r.endian == endian && r.sign == sign
  {
    var bits := ScanUnsigned(t, 0);
    if bits.None? then TypeScan(2, endian, sign, 0, 0, 0)
    else ScanStorage(t[bits.value.1..], endian, sign, bits.value.0)
  }

  /** After the used bits: `/` and the storage bits. */
  function ScanStorage(t: string, endian: char, sign: char, bits: nat): (r: TypeScan)
    ensures 3 <= r.count <= 5 && r.endian == endian && r.sign == sign && r.bits == bits
  {
    if !(t != [] && t[0] == '/') then TypeScan(3, endian, sign, bits, 0, 0)
    else
      var storage := ScanUnsigned(t, 1);
      if storage.None? then TypeScan(3, endian, sign, bits, 0, 0)
      else ScanShift(t[storage.value.1..], endian, sign, bits, storage.value.0)
  }

  /** After the storage bits: `>>` and the shift. */
  function ScanShift(t: string, endian: char, sign: char, bits: nat, storage: nat): (r: TypeScan)
    ensures 4 <= r.count <= 5 && r.endian == endian && r.sign == sign && r.bits == bits && r.storage == storage
  {
    if !(|t| >= 2 && t[0] == '>' && t[1] == '>') then TypeScan(4, endian, sign, bits, storage, 0)
    else
      var shift := ScanUnsigned(t, 2);
      if shift.None? then TypeScan(4, endian, sign, bits, storage, 0)
      else TypeScan(5, endian, sign, bits, storage, shift.value.0)
  }

  /** The type attribute as the kernel writes it. */
  function FormatType(littleEndian: bool, signed: bool, bits: nat, storage: nat, shift: nat): string {
    [if littleEndian then 'l' else 'b', 'e', ':', if signed then 's' else 'u']
      + (NatToString(bits) + ("/" + (NatToString(storage) + (">>" + NatToString(shift)))))
  }

  /** Every well-formed type attribute, with or without its trailing newline, is read back in full. */
  lemma ScanTypeOfFormat(littleEndian: bool, signed: bool, bits: nat, storage: nat, shift: nat, tail: string)
    requires tail == [] || !IsDigit(tail[0])
    ensures ScanType(FormatType(littleEndian, signed, bits, storage, shift) + tail)
         == TypeScan(5, if littleEndian then 'l' else 'b', if signed then 's' else 'u', bits, storage, shift)
  {
    var e, g := if littleEndian then 'l' else 'b', if signed then 's' else 'u';
    var head := [e, 'e', ':', g];
    var r2 := ">>" + (NatToString(shift) + tail);
    var r0 := "/" + (NatToString(storage) + r2);
    var s := head + (NatToString(bits) + r0);
    assert FormatType(littleEndian, signed, bits, storage, shift) + tail == s;
    assert s[4..] == NatToString(bits) + r0;
    assert s[0] == e && s[1] == 'e' && s[2] == ':' && s[3] == g;
    ShiftOfFormat(shift, tail, e, g, bits, storage);
    StorageOfFormat(storage, r2, e, g, bits);
    BitsOfFormat(bits, r0, e, g);
    PrefixStep(s, e, g, ScanBits(NatToString(bits) + r0, e, g));
  }

  lemma PrefixStep(s: string, e: char, g: char, r: TypeScan)
    requires |s| >= 4 && s[0] == e && s[1] == 'e' && s[2] == ':' && s[3] == g
    requires ScanBits(s[4..], e, g) == r
    ensures ScanType(s) == r
  {
  }

  lemma ShiftOfFormat(shift: nat, tail: string, e: char, g: char, bits: nat, storage: nat)
    requires tail == [] || !IsDigit(tail[0])
    ensures ScanShift(">>" + (NatToString(shift) + tail), e, g, bits, storage) == TypeScan(5, e, g, bits, storage, shift)
  {
    var t := ">>" + (NatToString(shift) + tail);
    assert t[2..] == NatToString(shift) + tail;
    ScanUnsignedAt(t, 2, shift, tail);
    ShiftStep(t, e, g, bits, storage, shift);
  }

  lemma ShiftStep(t: string, e: char, g: char, bits: nat, storage: nat, shift: nat)
    requires |t| >= 2 && t[0] == '>' && t[1] == '>'
    requires ScanUnsigned(t, 2).Some? && ScanUnsigned(t, 2).value.0 == shift
    ensures ScanShift(t, e, g, bits, storage) == TypeScan(5, e, g, bits, storage, shift)
  {
  }

  lemma StorageOfFormat(storage: nat, rest: string, e: char, g: char, bits: nat)
    requires rest != [] && rest[0] == '>'
    ensures ScanStorage("/" + (NatToString(storage) + rest), e, g, bits) == ScanShift(rest, e, g, bits, storage)
  {
    var t := "/" + (NatToString(storage) + rest);
    assert t[1..] == NatToString(storage) + rest;
    ScanUnsignedAt(t, 1, storage, rest);
    assert t[1 + |NatToString(storage)|..] == rest;
  }

  lemma BitsOfFormat(bits: nat, rest: string, e: char, g: char)
    requires rest != [] && rest[0] == '/'
    ensures ScanBits(NatToString(bits) + rest, e, g) == ScanStorage(rest, e, g, bits)
  {
    var t := NatToString(bits) + rest;
    assert t[0..] == t;
    ScanUnsignedAt(t, 0, bits, rest);
    assert t[|NatToString(bits)|..] == rest;
  }

  /**
    A well-formed type attribute followed by a non-digit (its newline), read
    into a buffer holding anything at all, scans in full: what earlier reads
    left behind it in the buffer is never reached.
   */
  lemma TypeTextOfFormat(buf: ReadBuf, littleEndian: bool, signed: bool, bits: nat, storage: nat, shift: nat, tail: string)
    requires tail != [] && !IsDigit(tail[0])
    requires |FormatType(littleEndian, signed, bits, storage, shift) + tail| <= 31
    requires '\0' !in FormatType(littleEndian, signed, bits, storage, shift) + tail
    ensures ScanType(TypeText(buf, FormatType(littleEndian, signed, bits, storage, shift) + tail))
         == TypeScan(5, if littleEndian then 'l' else 'b', if signed then 's' else 'u', bits, storage, shift)
  {
    var f := FormatType(littleEndian, signed, bits, storage, shift);
    TypeTextPrefix(buf, f + tail);
    var stale := CString(buf[|f + tail|..]);
    AppendAssoc(f, tail, stale);
    ScanTypeOfFormat(littleEndian, signed, bits, storage, shift, tail + stale);
  }

  lemma AppendAssoc(a: string, b: string, c: string)
    ensures (a + b) + c == a + (b + c)
  {
  }

  /** A NUL-free file that fits the 31-byte read is seen whole, followed by what the buffer held after it. */
  lemma TypeTextPrefix(buf: ReadBuf, content: string)
    requires |content| <= 31 && '\0' !in content
    ensures TypeText(buf, content) == content + CString(buf[|content|..])
  {
    ReadIntoWhole(buf, content, 31);
    CStringAppend(content, buf[|content|..]);
  }

  /** A file no longer than the read replaces the front of the buffer with all of itself. */
  lemma ReadIntoWhole(buf: ReadBuf, content: string, n: nat)
    requires |content| <= n <= ReadBufSize
    ensures ReadInto(buf, content, n) == content + buf[|content|..]
  {
    assert content[..|content|] == content;
  }

  lemma ScanTypeExample()
    ensures ScanType("le:s12/16>>4\n") == TypeScan(5, 'l', 's', 12, 16, 4)
  {
    assert NatToString(12) == "12" && NatToString(16) == "16" && NatToString(4) == "4";
    assert FormatType(true, true, 12, 16, 4) + "\n" == "le:s12/16>>4\n";
    ScanTypeOfFormat(true, true, 12, 16, 4, "\n");
  }

  // ---------------------------------------------------------------------
  // Offsets and masks
  // ---------------------------------------------------------------------

  /**
    The byte offset of a channel of `bytes` bytes when `curr` bytes are in use
    (iio.c:120-124): `curr` itself when it is a multiple of `bytes`, otherwise
    the next multiple above it.
   */
  function AlignUp(curr: nat, bytes: nat): (loc: nat)
    requires bytes > 0
    ensures loc % bytes == 0 && curr <= loc < curr + bytes
  {
    var q, r := curr / bytes, curr % bytes;
    assert curr == bytes * q + r;
    if r == 0 then curr
    else
      DivModUnique(curr - r + bytes, bytes, q + 1, 0);
      curr - r + bytes
  }

  /** `x == b * q + r` with `0 <= r < b` fixes the quotient and the remainder. */
  lemma DivModUnique(x: int, b: int, q: int, r: int)
    requires b > 0 && 0 <= r < b && x == b * q + r
    ensures x / b == q && x % b == r
  {
    var q0, r0 := x / b, x % b;
    assert x == b * q0 + r0;
    if q0 < q {
      assert b * q - b * q0 == b * (q - q0);
      MulAtLeast(b, q - q0);
      assert false;
    } else if q < q0 {
      assert b * q0 - b * q == b * (q0 - q);
      MulAtLeast(b, q0 - q);
      assert false;
    }
  }

  lemma MulAtLeast(b: int, d: int)
    requires b > 0 && d >= 1
    ensures b * d >= b
  {
    assert b * d == b * (d - 1) + b;
  }

  /** The offset is the least aligned position at or after `curr`. */
  lemma AlignUpLeast(curr: nat, bytes: nat, m: nat)
    requires bytes > 0 && m % bytes == 0 && m >= curr
    ensures AlignUp(curr, bytes) <= m
  {
    var loc := AlignUp(curr, bytes);
    if m < loc {
      var a, b := m / bytes, loc / bytes;
      assert m == bytes * a && loc == bytes * b;
      if b <= a {
        MulMonotone(bytes, b, a);
      } else {
        assert loc - m == bytes * (b - a);
        MulAtLeast(bytes, b - a);
      }
      assert false;
    }
  }

  lemma MulMonotone(b: nat, x: nat, y: nat)
    requires x <= y
    ensures b * x <= b * y
  {
    assert b * y == b * x + b * (y - x);
  }

  /**
    The channel mask (iio.c:135-139): all 64 bits when 64 bits are used,
    `(1 << bits_used) - 1` otherwise. The shift is of a C `int`, so it is only
    defined below 31 bits.
   */
  function Mask(bitsUsed: nat): (m: nat)
    requires bitsUsed < 31 || bitsUsed == 64
    ensures m < Pow2(64)
    ensures forall k :: 0 <= k < 64 ==> (BitSet(m, k) <==> k < bitsUsed)
  {
    Pow2Value64();
    Pow2Monotone(bitsUsed, 64);
    var m := if bitsUsed == 64 then 0xFFFF_FFFF_FFFF_FFFF else Pow2(bitsUsed) - 1;
    LowOnesAll(bitsUsed, m);
    m
  }

  lemma Pow2Value64()
    ensures Pow2(64) == 0x1_0000_0000_0000_0000
  {
    assert Pow2(8) == 256;
    Pow2Add(8, 8);
    assert Pow2(16) == 0x1_0000;
    Pow2Add(16, 16);
    assert Pow2(32) == 0x1_0000 * 0x1_0000 == 0x1_0000_0000;
    Pow2Add(32, 32);
    assert Pow2(64) == 0x1_0000_0000 * 0x1_0000_0000;
  }

  lemma {:induction false} Pow2Add(a: nat, b: nat)
    ensures Pow2(a + b) == Pow2(a) * Pow2(b)
  {
    if a > 0 {
      Pow2Add(a - 1, b);
    }
  }

  lemma {:induction false} Pow2Monotone(a: nat, b: nat)
    requires a <= b
    ensures Pow2(a) <= Pow2(b)
  {
    if a < b {
      Pow2Monotone(a, b - 1);
    }
  }

  /** Halving a number moves each of its bits one place down. */
  lemma HalfBit(x: nat, k: nat)
    ensures BitSet(x, k + 1) <==> BitSet(x / 2, k)
  {
    var q := Pow2(k);
    var a := x / 2;
    var b := a / q;
    assert x == 2 * a + x % 2;
    assert a == q * b + a % q;
    assert x == (2 * q) * b + (2 * (a % q) + x % 2);
    DivModUnique(x, 2 * q, b, 2 * (a % q) + x % 2);
    assert Pow2(k + 1) == 2 * q;
  }

  /** `2^b - 1` has exactly its low `b` bits set. */
  lemma {:induction false} LowOnes(b: nat, k: nat)
    ensures BitSet(Pow2(b) - 1, k) <==> k < b
  {
    if b == 0 {
      assert Pow2(b) - 1 == 0;
    } else {
      LowOnesHalf(b);
      if k == 0 {
        assert Pow2(k) == 1;
      } else {
        HalfBit(Pow2(b) - 1, k - 1);
        LowOnes(b - 1, k - 1);
      }
    }
  }

  /** `2^b - 1` is odd, and halving it gives `2^(b-1) - 1`. */
  lemma LowOnesHalf(b: nat)
    requires b > 0
    ensures (Pow2(b) - 1) % 2 == 1 && (Pow2(b) - 1) / 2 == Pow2(b - 1) - 1
  {
    DivModUnique(Pow2(b) - 1, 2, Pow2(b - 1) - 1, 1);
  }

  lemma LowOnesAll(b: nat, m: nat)
    requires m == Pow2(b) - 1
    ensures forall k: nat :: BitSet(m, k) <==> k < b
  {
    forall k: nat
      ensures BitSet(m, k) <==> k < b
    {
      LowOnes(b, k);
    }
  }

  // ---------------------------------------------------------------------
  // The channel scan of mraa_iio_get_channel_data
  // ---------------------------------------------------------------------

  datatype Channel = Channel(
    index: int, enabled: int, lendian: bool, signedd: bool,
    mask: nat, bitsUsed: nat, bytes: nat, shift: nat, location: nat)

  /** A channel record as calloc leaves it. */
  const ZeroChannel := Channel(0, 0, false, false, 0, 0, 0, 0, 0)

  /** One placement in the sample buffer, in processing order. */
  datatype Slot = Slot(channel: nat, location: nat, bytes: nat)

  datatype Phase = Scanning | Stopped | Failed(code: MraaResult)

  /**
    The variables the second pass carries from one directory entry to the
    next: the channel table, `curr_bytes`, the sscanf targets that are locals
    of the function (`padint`, `shortbuf`, `signchar`), the stack buffer
    `readbuf` every read goes through, whether the loop has left, and the
    placements made so far (a record of the run, not a variable of the source).
   */
  datatype ScanState = ScanState(
    channels: seq<Channel>, currBytes: nat, padint: nat, shortbuf: char, signchar: char,
    readbuf: ReadBuf, phase: Phase, log: seq<Slot>)

  /**
    The state before the second pass over a directory with `chanCount` `_en`
    entries. `shortbuf`, `signchar` and `readbuf` are uninitialised locals in
    the source, so whatever they hold is a parameter.
   */
  function InitialScan(chanCount: nat, shortbuf: char, signchar: char, readbuf: ReadBuf): ScanState {
    ScanState(seq(chanCount, _ => ZeroChannel), 0, 0, shortbuf, signchar, readbuf, Scanning, [])
  }

  /** `padint` after the type scan: reassigned only when the fourth conversion was made. */
  function NextPadint(st: ScanState, sc: TypeScan): nat {
    if sc.count >= 4 then sc.storage else st.padint
  }

  /** `bits_used` after the type scan: reassigned only when the third conversion was made. */
  function NextBits(ch: Channel, sc: TypeScan): nat {
    if sc.count >= 3 then sc.bits else ch.bitsUsed
  }

  /** The conditions the type step needs that the source does not check (iio.c:120, iio.c:138). */
  predicate TypeStepSafe(st: ScanState, ch: Channel, sc: TypeScan) {
    && NextPadint(st, sc) / 8 > 0
    && (sc.count >= 0 ==> NextBits(ch, sc) < 31 || NextBits(ch, sc) == 64)
  }

  /** iio.c:111-141: scan the type attribute, place the channel, then fill in the flags and the mask. */
  function TypeStep(st: ScanState, idx: nat, ch: Channel, content: string): (r: ScanState)
    requires idx < |st.channels|
    requires TypeStepSafe(st, ch, ScanType(TypeText(st.readbuf, content)))
  {
    var sc := ScanType(TypeText(st.readbuf, content));
    var shortbuf := if sc.count >= 1 then sc.endian else st.shortbuf;
    var signchar := if sc.count >= 2 then sc.sign else st.signchar;
    var padint := NextPadint(st, sc);
    var bytes := padint / 8;
    var loc := AlignUp(st.currBytes, bytes);
    var placed := ch.(bitsUsed := NextBits(ch, sc),
                      shift := if sc.count >= 5 then sc.shift else ch.shift,
                      bytes := bytes, location := loc);
    var next := st.(padint := padint, shortbuf := shortbuf, signchar := signchar,
                    readbuf := ReadInto(st.readbuf, content, 31), currBytes := loc + bytes, log := st.log + [Slot(idx, loc, bytes)]);
    if sc.count < 0 then
      next.(channels := st.channels[idx := placed], phase := Failed(IoSetupFailure))
    else
      var done := placed.(signedd := signchar == 's', lendian := shortbuf == 'l', mask := Mask(placed.bitsUsed));
      next.(channels := st.channels[idx := done])
  }

  /**
    What the type step writes into the channel. The scan fails with
    MRAA_IO_SETUP_FAILURE exactly when the buffer starts with a NUL after the
    read, so an empty read only fails when the buffer did before: otherwise
    sscanf reads what earlier reads left. When it goes on, the endianness
    comes from the first character and the sign from the fourth once the `e:`
    between them matched, the width is the storage bits over eight, the
    offset is aligned and the bytes in use end with this channel.
   */
  lemma TypeStepFields(st: ScanState, idx: nat, ch: Channel, content: string)
    requires st.phase == Scanning
    requires idx < |st.channels|
    requires TypeStepSafe(st, ch, ScanType(TypeText(st.readbuf, content)))
    ensures var r := TypeStep(st, idx, ch, content);
      var c := r.channels[idx];
      var buf := r.readbuf;
      var t := CString(buf);
      && |r.channels| == |st.channels|
      && (forall k :: 0 <= k < |st.channels| && k != idx ==> r.channels[k] == st.channels[k])
      && (content == [] ==> buf == st.readbuf)
      && (content != [] ==> buf[0] == content[0])
      && (r.phase == Failed(IoSetupFailure) <==> buf[0] == '\0')
      && (buf[0] != '\0' ==> r.phase == Scanning && c.lendian == (buf[0] == 'l'))
      && (|t| >= 4 && t[1] == 'e' && t[2] == ':' ==> c.signedd == (t[3] == 's'))
      && (buf[0] != '\0' ==> forall k :: 0 <= k < 64 ==> (BitSet(c.mask, k) <==> k < c.bitsUsed))
      && c.bytes == r.padint / 8 && c.location % c.bytes == 0
      && st.currBytes <= c.location < st.currBytes + c.bytes
      && r.currBytes == c.location + c.bytes
  {
  }

  /**
    A type attribute that scans in full (as every well-formed one does, by
    `ScanTypeOfFormat`) sets every field of the channel from the attribute.
   */
  lemma TypeStepOfFullScan(st: ScanState, idx: nat, ch: Channel, content: string,
                           e: char, g: char, bits: nat, storage: nat, shift: nat)
    requires st.phase == Scanning
    requires idx < |st.channels|
    requires ScanType(TypeText(st.readbuf, content)) == TypeScan(5, e, g, bits, storage, shift)
    requires storage >= 8 && (bits < 31 || bits == 64)
    ensures var r := TypeStep(st, idx, ch, content);
      && r.phase == Scanning
      && r.channels[idx] == ch.(bitsUsed := bits, shift := shift, bytes := storage / 8,
                                location := AlignUp(st.currBytes, storage / 8), signedd := g == 's',
                                lendian := e == 'l', mask := Mask(bits))
  {
  }

  /**
    An empty `_type` read does not fail the scan when the `_index` read
    before it left "0\n" at the front of the buffer: sscanf takes the `0` as
    the endianness character, stops at the newline and reports one
    conversion, so the channel is placed and the scan goes on.
   */
  lemma EmptyTypeReadsStaleBuffer(st: ScanState, idx: nat, ch: Channel)
    requires st.phase == Scanning && idx < |st.channels|
    requires st.readbuf[0] == '0' && st.readbuf[1] == '\n'
    requires TypeStepSafe(st, ch, ScanType(TypeText(st.readbuf, "")))
    ensures ScanType(TypeText(st.readbuf, "")).count == 1
    ensures TypeStep(st, idx, ch, "").phase == Scanning
    ensures TypeStep(st, idx, ch, "").shortbuf == '0'
  {
    assert ReadInto(st.readbuf, "", 31) == st.readbuf;
    var t := CString(st.readbuf);
    assert t[0] == '0' && t[1] == '\n';
  }

  /** iio.c:142-152: read the enable flag; a short read ends the scan with -1. */
  function EnableStep(st: ScanState, idx: nat, enPath: string, files: map<string, string>): ScanState
    requires idx < |st.channels|
  {
    if enPath !in files then st
    else
      var buf := ReadInto(st.readbuf, files[enPath], 2);
      if |files[enPath]| < 2 then st.(readbuf := buf, phase := Failed(MinusOne))
      else st.(readbuf := buf, channels := st.channels[idx := st.channels[idx].(enabled := TwoByteValue(st.readbuf, files[enPath]))])
  }

  /** What the second pass requires of one entry and does not check itself. */
  predicate ChannelStepSafe(st: ScanState, num: int, name: string, files: map<string, string>) {
    && |name| >= 6
    && (HasSuffix(name, "_index") && ScanElementPath(num, name) in files && |files[ScanElementPath(num, name)]| >= 2 ==>
          var path := ScanElementPath(num, name);
          var idx := TwoByteValue(st.readbuf, files[path]);
          var read := st.(readbuf := ReadInto(st.readbuf, files[path], 2));
          && 0 <= idx < |st.channels|
          && (TypePath(ChannelStem(path)) in files ==>
                TypeStepSafe(read, st.channels[idx].(index := idx), ScanType(TypeText(read.readbuf, files[TypePath(ChannelStem(path))])))))
  }

  /** One iteration of the second pass (iio.c:96-156) on the entry `name`. */
  function ChannelStep(st: ScanState, num: int, name: string, files: map<string, string>): ScanState
    requires ChannelStepSafe(st, num, name, files)
  {
    if !HasSuffix(name, "_index") then st
    else
      var path := ScanElementPath(num, name);
      if path !in files then st
      else
        var read := st.(readbuf := ReadInto(st.readbuf, files[path], 2));
        if |files[path]| < 2 then read.(phase := Stopped)
        else
          var idx := TwoByteValue(st.readbuf, files[path]);
          var ch := st.channels[idx].(index := idx);
          var stem := ChannelStem(path);
          var typed :=
            if TypePath(stem) in files then TypeStep(read, idx, ch, files[TypePath(stem)])
            else read.(channels := st.channels[idx := ch]);
          if typed.phase.Failed? then typed else EnableStep(typed, idx, EnablePath(stem), files)
  }

  predicate ChannelsSafe(st: ScanState, num: int, entries: seq<string>, files: map<string, string>)
    decreases |entries|
  {
    entries == [] || st.phase != Scanning ||
      (ChannelStepSafe(st, num, entries[0], files) && ChannelsSafe(ChannelStep(st, num, entries[0], files), num, entries[1..], files))
  }

  /** The second pass over the remaining entries, until the listing ends, a `break` or a `return`. */
  function RunChannels(st: ScanState, num: int, entries: seq<string>, files: map<string, string>): ScanState
    requires ChannelsSafe(st, num, entries, files)
    decreases |entries|
  {
    if entries == [] || st.phase != Scanning then st
    else RunChannels(ChannelStep(st, num, entries[0], files), num, entries[1..], files)
  }

  /** What the source does not check about a whole channel scan. */
  predicate ChannelScanSafe(num: int, entries: seq<string>, files: map<string, string>,
                            shortbuf: char, signchar: char, readbuf: ReadBuf) {
    && NamesAtLeast(entries, 3)
    && ChannelsSafe(InitialScan(CountSuffix(entries, "_en"), shortbuf, signchar, readbuf), num, entries, files)
  }

  /** Both passes of the channel scan over the listing `entries` of the device's scan elements. */
  function ChannelScan(num: int, entries: seq<string>, files: map<string, string>,
                       shortbuf: char, signchar: char, readbuf: ReadBuf): ScanState
    requires ChannelScanSafe(num, entries, files, shortbuf, signchar, readbuf)
  {
    RunChannels(InitialScan(CountSuffix(entries, "_en"), shortbuf, signchar, readbuf), num, entries, files)
  }

  /** The scan over a non-empty listing is one step followed by the scan of the rest. */
  lemma RunChannelsFirst(st: ScanState, num: int, entries: seq<string>, files: map<string, string>)
    requires entries != [] && st.phase == Scanning
    requires ChannelsSafe(st, num, entries, files)
    ensures ChannelStepSafe(st, num, entries[0], files)
    ensures var next := ChannelStep(st, num, entries[0], files);
      && ChannelsSafe(next, num, entries[1..], files)
      && RunChannels(st, num, entries, files) == RunChannels(next, num, entries[1..], files)
      && (next.phase != Scanning ==> RunChannels(st, num, entries, files) == next)
  {
  }

  // ---------------------------------------------------------------------
  // The layout the channel scan produces
  // ---------------------------------------------------------------------

  /** The end of the last placement: the bytes in use, zero when nothing was placed. */
  function LayoutEnd(log: seq<Slot>): nat {
    if log == [] then 0 else log[|log| - 1].location + log[|log| - 1].bytes
  }

  /** Placements are aligned to their own width, and each ends before the next begins. */
  predicate Packed(log: seq<Slot>) {
    && (forall k :: 0 <= k < |log| ==> log[k].bytes > 0 && log[k].location % log[k].bytes == 0)
    && (forall i, j :: 0 <= i < j < |log| ==> log[i].location + log[i].bytes <= log[j].location)
  }

  /** Each channel with a width holds the placement made for it. */
  predicate ChannelsPlaced(channels: seq<Channel>, log: seq<Slot>) {
    forall c :: 0 <= c < |channels| && channels[c].bytes > 0 ==>
      exists k :: 0 <= k < |log| && log[k] == Slot(c, channels[c].location, channels[c].bytes)
  }

  predicate LayoutInvariant(st: ScanState) {
    && Packed(st.log)
    && st.currBytes == LayoutEnd(st.log)
    && ChannelsPlaced(st.channels, st.log)
  }

  lemma PackedEnds(log: seq<Slot>)
    requires Packed(log)
    ensures forall k :: 0 <= k < |log| ==> log[k].location + log[k].bytes <= LayoutEnd(log)
  {
    if log != [] {
      var n := |log| - 1;
      forall k | 0 <= k < |log|
        ensures log[k].location + log[k].bytes <= LayoutEnd(log)
      {
        if k < n {
          assert log[k].location + log[k].bytes <= log[n].location;
        }
      }
    }
  }

  /** Appending a placement at or after the current end keeps the log packed. */
  lemma PackedAppend(log: seq<Slot>, s: Slot)
    requires Packed(log)
    requires s.bytes > 0 && s.location % s.bytes == 0 && s.location >= LayoutEnd(log)
    ensures Packed(log + [s]) && LayoutEnd(log + [s]) == s.location + s.bytes
  {
    PackedEnds(log);
    var l := log + [s];
    forall i, j | 0 <= i < j < |l|
      ensures l[i].location + l[i].bytes <= l[j].location
    {
      if j == |log| {
        assert l[i] == log[i];
      } else {
        assert l[i] == log[i] && l[j] == log[j];
      }
    }
  }

  /** Replacing a channel by one with the same placement keeps every channel placed. */
  lemma PlacedKeep(channels: seq<Channel>, log: seq<Slot>, idx: nat, ch: Channel, extra: seq<Slot>)
    requires ChannelsPlaced(channels, log)
    requires idx < |channels|
    requires ch.bytes == channels[idx].bytes && ch.location == channels[idx].location
    ensures ChannelsPlaced(channels[idx := ch], log + extra)
  {
    var cs := channels[idx := ch];
    forall c | 0 <= c < |cs| && cs[c].bytes > 0
      ensures exists k :: 0 <= k < |log + extra| && (log + extra)[k] == Slot(c, cs[c].location, cs[c].bytes)
    {
      var k :| 0 <= k < |log| && log[k] == Slot(c, channels[c].location, channels[c].bytes);
      assert (log + extra)[k] == log[k];
    }
  }

  /** Giving one channel a new placement, appended to the log, keeps every channel placed. */
  lemma PlacedMove(channels: seq<Channel>, log: seq<Slot>, idx: nat, ch: Channel)
    requires ChannelsPlaced(channels, log)
    requires idx < |channels|
    ensures ChannelsPlaced(channels[idx := ch], log + [Slot(idx, ch.location, ch.bytes)])
  {
    var cs := channels[idx := ch];
    var l := log + [Slot(idx, ch.location, ch.bytes)];
    forall c | 0 <= c < |cs| && cs[c].bytes > 0
      ensures exists k :: 0 <= k < |l| && l[k] == Slot(c, cs[c].location, cs[c].bytes)
    {
      if c == idx {
        assert l[|log|] == Slot(c, cs[c].location, cs[c].bytes);
      } else {
        var k :| 0 <= k < |log| && log[k] == Slot(c, channels[c].location, channels[c].bytes);
        assert l[k] == log[k];
      }
    }
  }

  lemma TypeStepLayout(st: ScanState, idx: nat, ch: Channel, content: string)
    requires idx < |st.channels|
    requires TypeStepSafe(st, ch, ScanType(TypeText(st.readbuf, content)))
    requires LayoutInvariant(st)
    ensures LayoutInvariant(TypeStep(st, idx, ch, content))
  {
    var r := TypeStep(st, idx, ch, content);
    var s := r.log[|r.log| - 1];
    assert r.log == st.log + [s];
    PackedAppend(st.log, s);
    PlacedMove(st.channels, st.log, idx, r.channels[idx]);
    assert r.channels == st.channels[idx := r.channels[idx]];
  }

  lemma ChannelStepLayout(st: ScanState, num: int, name: string, files: map<string, string>)
    requires ChannelStepSafe(st, num, name, files)
    requires LayoutInvariant(st)
    ensures LayoutInvariant(ChannelStep(st, num, name, files))
  {
    if HasSuffix(name, "_index") {
      var path := ScanElementPath(num, name);
      if path in files && |files[path]| >= 2 {
        var read := st.(readbuf := ReadInto(st.readbuf, files[path], 2));
        var idx := TwoByteValue(st.readbuf, files[path]);
        var ch := st.channels[idx].(index := idx);
        var stem := ChannelStem(path);
        var typed :=
          if TypePath(stem) in files then TypeStep(read, idx, ch, files[TypePath(stem)])
          else read.(channels := st.channels[idx := ch]);
        if TypePath(stem) in files {
          TypeStepLayout(read, idx, ch, files[TypePath(stem)]);
        } else {
          PlacedKeep(st.channels, st.log, idx, ch, []);
          assert st.log + [] == st.log;
        }
        if !typed.phase.Failed? {
          EnableStepLayout(typed, idx, EnablePath(stem), files);
        }
      }
    }
  }

  lemma EnableStepLayout(st: ScanState, idx: nat, enPath: string, files: map<string, string>)
    requires idx < |st.channels|
    requires LayoutInvariant(st)
    ensures LayoutInvariant(EnableStep(st, idx, enPath, files))
  {
    if enPath in files && |files[enPath]| >= 2 {
      PlacedKeep(st.channels, st.log, idx, st.channels[idx].(enabled := TwoByteValue(st.readbuf, files[enPath])), []);
      assert st.log + [] == st.log;
    }
  }

  lemma {:induction false} RunChannelsLayout(st: ScanState, num: int, entries: seq<string>, files: map<string, string>)
    requires ChannelsSafe(st, num, entries, files)
    decreases |entries|
    requires LayoutInvariant(st)
    ensures LayoutInvariant(RunChannels(st, num, entries, files))
  {
    if entries != [] && st.phase == Scanning {
      ChannelStepLayout(st, num, entries[0], files);
      RunChannelsLayout(ChannelStep(st, num, entries[0], files), num, entries[1..], files);
    }
  }

  /**
    The sample-buffer layout of a whole scan: every channel given a width sits
    at an offset that is a multiple of its width, inside the `currBytes` that
    becomes `datasize`; two channels never overlap; and nothing placed means a
    `datasize` of zero.
   */
  lemma ChannelScanLayout(num: int, entries: seq<string>, files: map<string, string>,
                           shortbuf: char, signchar: char, readbuf: ReadBuf)
    requires ChannelScanSafe(num, entries, files, shortbuf, signchar, readbuf)
    ensures var fin := ChannelScan(num, entries, files, shortbuf, signchar, readbuf);
      && |fin.channels| == CountSuffix(entries, "_en")
      && (forall c :: 0 <= c < |fin.channels| && fin.channels[c].bytes > 0 ==>
            && fin.channels[c].location % fin.channels[c].bytes == 0
            && fin.channels[c].location + fin.channels[c].bytes <= fin.currBytes)
      && (forall c1, c2 ::
            (0 <= c1 < |fin.channels| && 0 <= c2 < |fin.channels| && c1 != c2
             && fin.channels[c1].bytes > 0 && fin.channels[c2].bytes > 0) ==>
              || fin.channels[c1].location + fin.channels[c1].bytes <= fin.channels[c2].location
              || fin.channels[c2].location + fin.channels[c2].bytes <= fin.channels[c1].location)
      && (fin.log == [] ==> fin.currBytes == 0)
  {
    var init := InitialScan(CountSuffix(entries, "_en"), shortbuf, signchar, readbuf);
    RunChannelsLength(init, num, entries, files);
    RunChannelsLayout(init, num, entries, files);
    var fin := RunChannels(init, num, entries, files);
    PackedEnds(fin.log);
    forall c1, c2 | 0 <= c1 < |fin.channels| && 0 <= c2 < |fin.channels| && c1 != c2
        && fin.channels[c1].bytes > 0 && fin.channels[c2].bytes > 0
      ensures || fin.channels[c1].location + fin.channels[c1].bytes <= fin.channels[c2].location
              || fin.channels[c2].location + fin.channels[c2].bytes <= fin.channels[c1].location
    {
      var k1 :| 0 <= k1 < |fin.log| && fin.log[k1] == Slot(c1, fin.channels[c1].location, fin.channels[c1].bytes);
      var k2 :| 0 <= k2 < |fin.log| && fin.log[k2] == Slot(c2, fin.channels[c2].location, fin.channels[c2].bytes);
      assert k1 != k2;
    }
  }

  lemma {:induction false} RunChannelsLength(st: ScanState, num: int, entries: seq<string>, files: map<string, string>)
    requires ChannelsSafe(st, num, entries, files)
    decreases |entries|
    ensures |RunChannels(st, num, entries, files).channels| == |st.channels|
  {
    if entries != [] && st.phase == Scanning {
      RunChannelsLength(ChannelStep(st, num, entries[0], files), num, entries[1..], files);
    }
  }

  // ---------------------------------------------------------------------
  // The event scan of mraa_iio_get_event_data
  // ---------------------------------------------------------------------

  /** An event record; a NULL name (as calloc leaves it) is `None`. */
  datatype Event = Event(name: Option<string>, enabled: int)

  const ZeroEvent := Event(None, 0)

  /**
    The variables of the second pass over the events directory: the event
    table, `event_num` (the next slot to fill), the stack buffer `readbuf`
    (an enable flag is parsed from it even when the file could not be
    opened), and whether the loop has broken off.
   */
  datatype EventState = EventState(events: seq<Event>, next: nat, readbuf: ReadBuf, stopped: bool)

  function InitialEvents(eventCount: nat, readbuf: ReadBuf): EventState {
    EventState(seq(eventCount, _ => ZeroEvent), 0, readbuf, false)
  }

  /** One iteration of iio.c:316-333 on the entry `name`. */
  function EventStep(st: EventState, num: int, name: string, files: map<string, string>): EventState
    requires |name| >= 3
    requires HasSuffix(name, "_en") ==> st.next < |st.events|
  {
    if !HasSuffix(name, "_en") then st
    else
      var named := st.events[st.next := st.events[st.next].(name := Some(name))];
      var path := EventPath(num, name);
      var buf := if path in files then ReadInto(st.readbuf, files[path], 2) else st.readbuf;
      if path in files && |files[path]| < 2 then st.(events := named, readbuf := buf, stopped := true)
      else st.(events := named[st.next := named[st.next].(enabled := StrToL(CString(buf)))], readbuf := buf, next := st.next + 1)
  }

  function RunEvents(st: EventState, num: int, entries: seq<string>, files: map<string, string>): (r: EventState)
    requires NamesAtLeast(entries, 3)
    requires st.next + CountSuffix(entries, "_en") <= |st.events|
    requires st.stopped ==> st.next < |st.events|
    ensures |r.events| == |st.events| && r.next <= |r.events|
    ensures r.stopped ==> r.next < |r.events|
    decreases |entries|
  {
    if entries == [] || st.stopped then st
    else RunEvents(EventStep(st, num, entries[0], files), num, entries[1..], files)
  }

  /** The event scan over a non-empty listing is one step followed by the scan of the rest. */
  lemma RunEventsFirst(st: EventState, num: int, entries: seq<string>, files: map<string, string>)
    requires entries != [] && !st.stopped && NamesAtLeast(entries, 3)
    requires st.next + CountSuffix(entries, "_en") <= |st.events|
    ensures |entries[0]| >= 3 && (HasSuffix(entries[0], "_en") ==> st.next < |st.events|)
    ensures var after := EventStep(st, num, entries[0], files);
      && NamesAtLeast(entries[1..], 3)
      && after.next + CountSuffix(entries[1..], "_en") <= |after.events|
      && (after.stopped ==> after.next < |after.events|)
      && RunEvents(st, num, entries, files) == RunEvents(after, num, entries[1..], files)
  {
  }

  /** One `_en` entry names the next slot, leaves every other slot alone and moves on unless it broke off. */
  lemma EventStepNamed(st: EventState, num: int, e: string, files: map<string, string>)
    requires |e| >= 3 && HasSuffix(e, "_en") && st.next < |st.events| && !st.stopped
    ensures var st1 := EventStep(st, num, e, files);
      && |st1.events| == |st.events|
      && st1.events[st.next].name == Some(e)
      && (forall j :: 0 <= j < |st.events| && j != st.next ==> st1.events[j] == st.events[j])
      && st1.next == (if st1.stopped then st.next else st.next + 1)
  {
  }

  /**
    The invariant of the second pass before an entry: the first `st.next`
    slots are named after `done`, and the rest are as calloc left them.
   */
  predicate NamedUpTo(st: EventState, done: seq<string>) {
    && st.next == |done| <= |st.events|
    && (forall j :: 0 <= j < st.next ==> st.events[j].name == Some(done[j]))
    && (forall j :: st.next <= j < |st.events| ==> st.events[j] == ZeroEvent)
  }

  /**
    The events after the second pass, against the `_en` names in directory
    order: slot `j` is named after the `j`-th of them for every slot the scan
    reached, the slot where a short read stopped it keeps its name, and the
    slots it never reached stay as calloc left them.
   */
  predicate NamedAfterScan(fin: EventState, names: seq<string>) {
    && fin.next <= |fin.events| && |names| == |fin.events|
    && (forall j :: 0 <= j < fin.next ==> fin.events[j].name == Some(names[j]))
    && (fin.stopped ==> fin.next < |fin.events| && fin.events[fin.next].name == Some(names[fin.next]))
    && (forall j :: (if fin.stopped then fin.next + 1 else fin.next) <= j < |fin.events| ==> fin.events[j] == ZeroEvent)
    && (!fin.stopped ==> fin.next == |fin.events|)
  }

  /** The events the second pass fills, from any state that keeps the invariant. */
  lemma {:induction false} RunEventsNames(st: EventState, num: int, entries: seq<string>, files: map<string, string>, done: seq<string>)
    requires NamesAtLeast(entries, 3)
    requires !st.stopped
    requires NamedUpTo(st, done) && st.next + CountSuffix(entries, "_en") == |st.events|
    decreases |entries|
    ensures NamedAfterScan(RunEvents(st, num, entries, files), done + FilterSuffix(entries, "_en"))
  {
    if entries == [] {
      assert done + FilterSuffix(entries, "_en") == done;
    } else {
      var st1, done1 := EventScanStep(st, num, entries, files, done);
      if !st1.stopped {
        RunEventsNames(st1, num, entries[1..], files, done1);
      }
    }
  }

  /**
    The first entry of a non-empty listing, as the induction of
    `RunEventsNames` uses it: either the scan stops there with its final
    state, or it goes on from a state that keeps the invariant, with the
    entry added to the names when it is an `_en` entry.
   */
  lemma EventScanStep(st: EventState, num: int, entries: seq<string>, files: map<string, string>, done: seq<string>)
      returns (st1: EventState, done1: seq<string>)
    requires entries != [] && NamesAtLeast(entries, 3) && !st.stopped
    requires NamedUpTo(st, done) && st.next + CountSuffix(entries, "_en") == |st.events|
    ensures NamesAtLeast(entries[1..], 3)
    ensures done + FilterSuffix(entries, "_en") == done1 + FilterSuffix(entries[1..], "_en")
    ensures st1.stopped ==> RunEvents(st, num, entries, files) == st1 && NamedAfterScan(st1, done1 + FilterSuffix(entries[1..], "_en"))
    ensures !st1.stopped ==>
      && NamedUpTo(st1, done1) && st1.next + CountSuffix(entries[1..], "_en") == |st1.events|
      && RunEvents(st, num, entries, files) == RunEvents(st1, num, entries[1..], files)
  {
    var e := entries[0];
    RunEventsFirst(st, num, entries, files);
    st1 := EventStep(st, num, e, files);
    done1 := if HasSuffix(e, "_en") then done + [e] else done;
    EventStepKeeps(st, num, e, files, done);
    FilterSuffixFirst(entries, "_en", done);
    if st1.stopped {
      StoppedNamed(st1, done1, FilterSuffix(entries[1..], "_en"));
    }
  }

  /** Filtering a non-empty listing after the names already collected. */
  lemma FilterSuffixFirst(entries: seq<string>, suffix: string, done: seq<string>)
    requires entries != [] && NamesAtLeast(entries, |suffix|)
    ensures NamesAtLeast(entries[1..], |suffix|)
    ensures done + FilterSuffix(entries, suffix)
         == (if HasSuffix(entries[0], suffix) then done + [entries[0]] else done) + FilterSuffix(entries[1..], suffix)
  {
    if HasSuffix(entries[0], suffix) {
      assert FilterSuffix(entries, suffix) == [entries[0]] + FilterSuffix(entries[1..], suffix);
    } else {
      assert FilterSuffix(entries, suffix) == FilterSuffix(entries[1..], suffix);
    }
  }

  /** A scan that stopped on the slot of the last name of `named` has its final names. */
  lemma StoppedNamed(fin: EventState, named: seq<string>, rest: seq<string>)
    requires fin.stopped && fin.next + 1 == |named| && |named| + |rest| == |fin.events|
    requires forall j :: 0 <= j < |named| ==> fin.events[j].name == Some(named[j])
    requires forall j :: |named| <= j < |fin.events| ==> fin.events[j] == ZeroEvent
    ensures NamedAfterScan(fin, named + rest)
  {
  }

  /**
    One step of the event scan keeps the invariant of the whole scan: the
    slots named so far are those of `done`, extended by the entry when it is
    an `_en` entry (also when a short read stopped the scan there), and the
    slots after them are still as calloc left them.
   */
  lemma EventStepKeeps(st: EventState, num: int, e: string, files: map<string, string>, done: seq<string>)
    requires |e| >= 3 && !st.stopped
    requires NamedUpTo(st, done) && (HasSuffix(e, "_en") ==> st.next < |st.events|)
    ensures var st1 := EventStep(st, num, e, files);
      var done1 := if HasSuffix(e, "_en") then done + [e] else done;
      && |st1.events| == |st.events| && |done1| <= |st.events|
      && (forall j :: 0 <= j < |done1| ==> st1.events[j].name == Some(done1[j]))
      && (forall j :: |done1| <= j < |st.events| ==> st1.events[j] == ZeroEvent)
      && (st1.stopped ==> HasSuffix(e, "_en") && st1.next == |done|)
      && (!st1.stopped ==> NamedUpTo(st1, done1))
  {
    if HasSuffix(e, "_en") {
      EventStepNamed(st, num, e, files);
    }
  }

  /** The whole event scan: `event_num` slots, named after the `_en` entries in directory order. */
  lemma EventScanNames(num: int, entries: seq<string>, files: map<string, string>, readbuf: ReadBuf)
    requires NamesAtLeast(entries, 3)
    ensures var fin := RunEvents(InitialEvents(CountSuffix(entries, "_en"), readbuf), num, entries, files);
      var names := FilterSuffix(entries, "_en");
      && |fin.events| == |names|
      && (forall j :: 0 <= j < |fin.events| ==> fin.events[j].name.None? || fin.events[j].name == Some(names[j]))
      && (!fin.stopped ==> forall j :: 0 <= j < |fin.events| ==> fin.events[j].name == Some(names[j]))
  {
    var init := InitialEvents(CountSuffix(entries, "_en"), readbuf);
    var names := FilterSuffix(entries, "_en");
    assert |init.events| == CountSuffix(entries, "_en");
    assert forall j :: 0 <= j < |init.events| ==> init.events[j] == ZeroEvent;
    RunEventsNames(init, num, entries, files, []);
    assert [] + names == names;
    var fin := RunEvents(init, num, entries, files);
    forall j | 0 <= j < |fin.events|
      ensures fin.events[j].name.None? || fin.events[j].name == Some(names[j])
    {
      if j > fin.next || (j == fin.next && !fin.stopped) {
        assert fin.events[j] == ZeroEvent;
      }
    }
  }

  /** Both passes of the event scan over the listing `entries` of the device's events. */
  function EventScan(num: int, entries: seq<string>, files: map<string, string>, readbuf: ReadBuf): EventState
    requires NamesAtLeast(entries, 3)
  {
    RunEvents(InitialEvents(CountSuffix(entries, "_en"), readbuf), num, entries, files)
  }
}
