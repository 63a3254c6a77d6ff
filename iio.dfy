/**
  The device side of src/iio/iio.c: a device record whose channel and event
  tables are filled from sysfs in place, the platform's device table, the
  exact-name lookup and `mraa_iio_init`.

  A directory that opendir() could not open is `None`; an open one is the
  sequence of names readdir() returns. File contents are a map from path to
  the bytes a read returns.
 */
module Iio {

  import opened Wrappers
  import opened Decimal
  import opened Common
  import opened IioLayout

  /** `struct _iio`: one IIO device of the platform table. */
  class IioDevice {
    const num: int
    const name: string
    var chanNum: int
    var channels: array<Channel>
    var datasize: int
    var eventNum: int
    var events: array<Event>

    /** A zero-filled table entry for device `num`, as the platform table is allocated. */
    constructor (num: int, name: string)
      ensures this.num == num && this.name == name
      ensures chanNum == 0 && channels.Length == 0 && datasize == 0
      ensures eventNum == 0 && events.Length == 0
    {
      this.num := num;
      this.name := name;
      chanNum := 0;
      channels := new Channel[0];
      datasize := 0;
      eventNum := 0;
      events := new Event[0];
    }

    /**
      `mraa_iio_get_channel_data`: count the `_en` entries, allocate that many
      zeroed channels, then walk the listing again and fill one channel per
      `_index` entry. The new channel table is the one `ChannelScan` describes;
      `datasize` becomes the bytes in use unless the scan failed, in which case
      the failure code is returned and `datasize` is left alone.
     */
    method GetChannelData(scanDir: Option<seq<string>>, files: map<string, string>,
                          shortbuf0: char, signchar0: char, readbuf0: ReadBuf)
      returns (r: MraaResult)
      requires scanDir.Some?
      requires ChannelScanSafe(num, scanDir.value, files, shortbuf0, signchar0, readbuf0)
      modifies this
      ensures fresh(channels)
      ensures eventNum == old(eventNum) && events == old(events)
      ensures var fin := ChannelScan(num, scanDir.value, files, shortbuf0, signchar0, readbuf0);
        && chanNum == CountSuffix(scanDir.value, "_en")
        && channels[..] == fin.channels
        && (fin.phase.Failed? ==> r == fin.phase.code && datasize == old(datasize))
        && (!fin.phase.Failed? ==> r == Success && datasize == fin.currBytes)
    {
      var entries := scanDir.value;
      var count := CountEnabled(entries);
      chanNum := count;
      var table := new Channel[count](_ => ZeroChannel);
      var curr, phase := FillChannels(table, num, entries, files, shortbuf0, signchar0, readbuf0);
      channels := table;
      if phase.Failed? {
        return phase.code;
      }
      datasize := curr;
      r := Success;
    }

    /**
      `mraa_iio_get_event_data`: when the events directory opens, count its
      `_en` entries, allocate that many zeroed events and fill them in
      directory order as `EventScan` describes; when it does not, nothing
      changes. Either way the result is success.
     */
    method GetEventData(eventsDir: Option<seq<string>>, files: map<string, string>, readbuf0: ReadBuf)
      returns (r: MraaResult)
      requires eventsDir.Some? ==> NamesAtLeast(eventsDir.value, 3)
      modifies this
      ensures r == Success
      ensures chanNum == old(chanNum) && channels == old(channels) && datasize == old(datasize)
      ensures eventsDir.None? ==> eventNum == old(eventNum) && events == old(events)
      ensures eventsDir.Some? ==>
        && fresh(events)
        && eventNum == CountSuffix(eventsDir.value, "_en")
        && events[..] == EventScan(num, eventsDir.value, files, readbuf0).events
    {
      r := Success;
      if eventsDir.None? {
        return;
      }
      var entries := eventsDir.value;
      var count := CountEnabled(entries);
      eventNum := count;
      var table := new Event[count](_ => ZeroEvent);
      FillEvents(table, num, entries, files, readbuf0);
      events := table;
    }
  }

  /**
    The second pass of `mraa_iio_get_channel_data` over the zeroed channel
    table: the bytes in use and how the loop ended.
   */
  method FillChannels(channels: array<Channel>, num: int, entries: seq<string>, files: map<string, string>,
                      shortbuf0: char, signchar0: char, readbuf0: ReadBuf)
    returns (curr: nat, phase: Phase)
    requires ChannelScanSafe(num, entries, files, shortbuf0, signchar0, readbuf0)
    requires channels.Length == CountSuffix(entries, "_en")
    requires forall j :: 0 <= j < channels.Length ==> channels[j] == ZeroChannel
    modifies channels
    ensures var fin := ChannelScan(num, entries, files, shortbuf0, signchar0, readbuf0);
      channels[..] == fin.channels && phase == fin.phase && curr == fin.currBytes
  {
    var padint: nat, shortbuf, signchar, readbuf := 0, shortbuf0, signchar0, readbuf0;
    curr, phase := 0, Scanning;
    ghost var init := InitialScan(channels.Length, shortbuf0, signchar0, readbuf0);
    ghost var st := init;
    assert channels[..] == init.channels;
    var rest := entries;
    while rest != []
      invariant st.phase == Scanning && phase == Scanning
      invariant st.channels == channels[..] && st.currBytes == curr && st.padint == padint
      invariant st.shortbuf == shortbuf && st.signchar == signchar && st.readbuf == readbuf
      invariant ChannelsSafe(st, num, rest, files)
      invariant RunChannels(st, num, rest, files) == RunChannels(init, num, entries, files)
      decreases |rest|
    {
      RunChannelsFirst(st, num, rest, files);
      curr, padint, shortbuf, signchar, readbuf, phase :=
        ScanEntry(channels, num, rest[0], files, st, curr, padint, shortbuf, signchar, readbuf);
      st := ChannelStep(st, num, rest[0], files);
      if phase != Scanning {
        return;
      }
      rest := rest[1..];
    }
  }

  /** The second pass of `mraa_iio_get_event_data` over the zeroed event table. */
  method FillEvents(events: array<Event>, num: int, entries: seq<string>, files: map<string, string>, readbuf0: ReadBuf)
    requires NamesAtLeast(entries, 3)
    requires events.Length == CountSuffix(entries, "_en")
    requires forall j :: 0 <= j < events.Length ==> events[j] == ZeroEvent
    modifies events
    ensures events[..] == EventScan(num, entries, files, readbuf0).events
  {
    var next: nat := 0;
    var readbuf := readbuf0;
    ghost var init := InitialEvents(events.Length, readbuf0);
    ghost var st := init;
    assert events[..] == init.events;
    var rest := entries;
    while rest != []
      invariant NamesAtLeast(rest, 3) && !st.stopped
      invariant st.events == events[..] && st.next == next && st.readbuf == readbuf
      invariant st.next + CountSuffix(rest, "_en") <= |st.events|
      invariant RunEvents(st, num, rest, files) == RunEvents(init, num, entries, files)
      decreases |rest|
    {
      RunEventsFirst(st, num, rest, files);
      ghost var after := EventStep(st, num, rest[0], files);
      var stopped;
      next, readbuf, stopped := EventEntry(events, num, rest[0], files, st, next, readbuf);
      st := after;
      if stopped {
        break;
      }
      rest := rest[1..];
    }
  }

  /**
    One iteration of the second pass of `mraa_iio_get_event_data` on the
    entry `name`: an `_en` entry names the next event and sets its enable
    flag from `readbuf` once two bytes have been read into it, or from what
    it still holds when the file does not open; a short read breaks the loop.
   */
  method EventEntry(events: array<Event>, num: int, name: string, files: map<string, string>,
                    ghost st: EventState, next: nat, readbuf: ReadBuf)
    returns (next': nat, readbuf': ReadBuf, stopped: bool)
    requires |name| >= 3 && !st.stopped
    requires st.events == events[..] && st.next == next && st.readbuf == readbuf
    requires HasSuffix(name, "_en") ==> next < events.Length
    modifies events
    ensures var after := EventStep(st, num, name, files);
      && events[..] == after.events && next' == after.next && readbuf' == after.readbuf
      && stopped == after.stopped
  {
    next', readbuf', stopped := next, readbuf, false;
    if HasSuffix(name, "_en") {
      events[next] := events[next].(name := Some(name));
      var path := EventPath(num, name);
      if path in files {
        readbuf' := ReadInto(readbuf, files[path], 2);
        if |files[path]| < 2 {
          stopped := true;
          return;
        }
      }
      events[next] := events[next].(enabled := StrToL(CString(readbuf')));
      next' := next + 1;
    }
  }

  /**
    One iteration of the second pass of `mraa_iio_get_channel_data` on the
    entry `name`, updating the channel table in place and returning the
    function's locals and whether the loop goes on, breaks or returns.
   */
  method ScanEntry(channels: array<Channel>, num: int, name: string, files: map<string, string>,
                   ghost st: ScanState, curr: nat, padint: nat, shortbuf: char, signchar: char, readbuf: ReadBuf)
    returns (curr': nat, padint': nat, shortbuf': char, signchar': char, readbuf': ReadBuf, phase: Phase)
    requires st.phase == Scanning && st.channels == channels[..]
    requires st.currBytes == curr && st.padint == padint && st.shortbuf == shortbuf && st.signchar == signchar
    requires st.readbuf == readbuf
    requires ChannelStepSafe(st, num, name, files)
    modifies channels
    ensures var next := ChannelStep(st, num, name, files);
      && channels[..] == next.channels && phase == next.phase
      && curr' == next.currBytes && padint' == next.padint
      && shortbuf' == next.shortbuf && signchar' == next.signchar && readbuf' == next.readbuf
  {
    curr', padint', shortbuf', signchar', readbuf', phase := curr, padint, shortbuf, signchar, readbuf, Scanning;
    if !HasSuffix(name, "_index") {
      return;
    }
    var path := ScanElementPath(num, name);
    if path !in files {
      return;
    }
    readbuf' := ReadInto(readbuf, files[path], 2);
    if |files[path]| < 2 {
      phase := Stopped;
      return;
    }
    var idx := StrToL(CString(readbuf'));
    var ch := channels[idx].(index := idx);
    var stem := ChannelStem(path);
    var typePath := TypePath(stem);
    if typePath in files {
      var failed;
      ghost var read := st.(readbuf := readbuf');
      curr', padint', shortbuf', signchar', readbuf', failed :=
        TypeEntry(channels, idx, ch, files[typePath], read, curr', padint', shortbuf', signchar', readbuf');
      if failed {
        phase := Failed(IoSetupFailure);
        return;
      }
    } else {
      channels[idx] := ch;
    }
    var enPath := EnablePath(stem);
    if enPath in files {
      readbuf' := ReadInto(readbuf', files[enPath], 2);
      if |files[enPath]| < 2 {
        phase := Failed(MinusOne);
        return;
      }
      channels[idx] := channels[idx].(enabled := StrToL(CString(readbuf')));
    }
  }

  /**
    The `_type` file of one channel: the read into `readbuf`, the `sscanf` of
    what the buffer then holds, the placement of the channel after the bytes
    already in use, and the channel written back into the table.
   */
  method TypeEntry(channels: array<Channel>, idx: nat, ch: Channel, content: string,
                   ghost st: ScanState, curr: nat, padint: nat, shortbuf: char, signchar: char, readbuf: ReadBuf)
    returns (curr': nat, padint': nat, shortbuf': char, signchar': char, readbuf': ReadBuf, failed: bool)
    requires idx < channels.Length && st.channels == channels[..] && st.phase == Scanning
    requires st.currBytes == curr && st.padint == padint && st.shortbuf == shortbuf && st.signchar == signchar
    requires st.readbuf == readbuf
    requires TypeStepSafe(st, ch, ScanType(TypeText(readbuf, content)))
    modifies channels
    ensures var next := TypeStep(st, idx, ch, content);
      && channels[..] == next.channels && failed == next.phase.Failed?
      && curr' == next.currBytes && padint' == next.padint
      && shortbuf' == next.shortbuf && signchar' == next.signchar && readbuf' == next.readbuf
  {
    var c := ch;
    curr', padint', shortbuf', signchar' := curr, padint, shortbuf, signchar;
    readbuf' := ReadInto(readbuf, content, 31);
    var sc := ScanType(CString(readbuf'));
    if sc.count >= 1 {
      shortbuf' := sc.endian;
    }
    if sc.count >= 2 {
      signchar' := sc.sign;
    }
    if sc.count >= 3 {
      c := c.(bitsUsed := sc.bits);
    }
    if sc.count >= 4 {
      padint' := sc.storage;
    }
    if sc.count >= 5 {
      c := c.(shift := sc.shift);
    }
    c := c.(bytes := padint' / 8);
    c := c.(location := AlignUp(curr', c.bytes));
    curr' := c.location + c.bytes;
    failed := sc.count < 0;
    if !failed {
      c := c.(signedd := signchar' == 's', lendian := shortbuf' == 'l');
      c := c.(mask := Mask(c.bitsUsed));
    }
    channels[idx] := c;
  }

  /** The first pass over a listing: how many names end in `_en`. */
  method CountEnabled(entries: seq<string>) returns (count: nat)
    requires NamesAtLeast(entries, 3)
    ensures count == CountSuffix(entries, "_en") == |FilterSuffix(entries, "_en")|
  {
    count := 0;
    var i := 0;
    while i < |entries|
      invariant 0 <= i <= |entries|
      invariant count == CountSuffix(entries[..i], "_en")
    {
      assert entries[..i + 1] == entries[..i] + [entries[i]];
      CountSuffixAppend(entries[..i], entries[i], "_en");
      if HasSuffix(entries[i], "_en") {
        count := count + 1;
      }
      i := i + 1;
    }
    assert entries[..i] == entries;
  }

  /** `plat_iio`: the platform's table of IIO devices. */
  class IioPlatform {
    const devices: array<IioDevice>

    constructor (devices: array<IioDevice>)
      ensures this.devices == devices
    {
      this.devices := devices;
    }

    /**
      `mraa_iio_init` with the bound the table needs: no device outside
      `0 .. count - 1`; otherwise the device's channel and event tables are
      read and the device is returned, with `datasize` (what
      `mraa_iio_read_size` reports) the bytes in use of a scan that did not
      fail; with no events directory its events stay as they were. The two scans have `readbuf` arrays of
      their own, so each has its own initial contents (`chanReadbuf0`,
      `readbuf0`). The source's own bound is `InitAdmitsAsWritten`.
     */
    method Init(device: int, scanDir: Option<seq<string>>, eventsDir: Option<seq<string>>,
                files: map<string, string>, shortbuf0: char, signchar0: char, chanReadbuf0: ReadBuf, readbuf0: ReadBuf)
      returns (dev: IioDevice?)
      requires 0 <= device < devices.Length ==>
        && scanDir.Some?
        && ChannelScanSafe(devices[device].num, scanDir.value, files, shortbuf0, signchar0, chanReadbuf0)
        && (eventsDir.Some? ==> NamesAtLeast(eventsDir.value, 3))
      modifies if 0 <= device < devices.Length then {devices[device]} else {}
      ensures dev == null <==> !(0 <= device < devices.Length)
      ensures dev != null ==>
        && dev == devices[device]
        && dev.chanNum == CountSuffix(scanDir.value, "_en")
        && dev.channels[..] == ChannelScan(dev.num, scanDir.value, files, shortbuf0, signchar0, chanReadbuf0).channels
        && (var fin := ChannelScan(dev.num, scanDir.value, files, shortbuf0, signchar0, chanReadbuf0);
            dev.datasize == if fin.phase.Failed? then old(devices[device].datasize) else fin.currBytes)
        && (eventsDir.None? ==> dev.eventNum == old(devices[device].eventNum) && dev.events == old(devices[device].events))
        && (eventsDir.Some? ==>
              && dev.eventNum == CountSuffix(eventsDir.value, "_en")
              && dev.events[..] == EventScan(dev.num, eventsDir.value, files, readbuf0).events)
    {
      if !(0 <= device < devices.Length) {
        return null;
      }
      dev := devices[device];
      var _ := dev.GetChannelData(scanDir, files, shortbuf0, signchar0, chanReadbuf0);
      var _ := dev.GetEventData(eventsDir, files, readbuf0);
    }
  }

  /**
    The bound `mraa_iio_init` checks as written: it turns away only devices
    above the count, so `device == count` (one past the table) and negative
    devices reach the table access.
   */
  function InitAdmitsAsWritten(device: int, count: nat): (admitted: bool) {
    !(device > count)
  }

  /** The device number equal to the table size passes the source's check yet indexes past the table. */
  lemma InitAdmitsOnePastEnd(count: nat)
    ensures InitAdmitsAsWritten(count, count) && !(0 <= count < count)
    ensures InitAdmitsAsWritten(-1, count)
  {
  }

  /**
    `mraa_iio_get_device_num_by_name`: -1 without a platform table or a name;
    otherwise the `num` of the first device whose name is exactly `name`, in
    table order, and -1 when there is none.
   */
  method DeviceNumByName(plat: IioPlatform?, name: Option<string>) returns (n: int)
    ensures plat == null || name.None? ==> n == -1
    ensures plat != null && name.Some? ==>
      || (n == -1 && forall i :: 0 <= i < plat.devices.Length ==> plat.devices[i].name != name.value)
      || (exists i :: 0 <= i < plat.devices.Length && plat.devices[i].name == name.value
            && n == plat.devices[i].num
            && forall j :: 0 <= j < i ==> plat.devices[j].name != name.value)
  {
    if plat == null || name.None? {
      return -1;
    }
    var i := 0;
    while i < plat.devices.Length
      invariant 0 <= i <= plat.devices.Length
      invariant forall j :: 0 <= j < i ==> plat.devices[j].name != name.value
    {
      if plat.devices[i].name == name.value {
        return plat.devices[i].num;
      }
      i := i + 1;
    }
    n := -1;
  }
}
