/**
 * The text side of backend/utils/systemInfoUtils.js: the uptime formatter,
 * the reader of the `key:value` report a remote host prints about itself
 * (with `network_iface:` lines describing its addresses), and the reader
 * of the `name:status:version` lines of the dependency probe.
 */
module SystemInfo {
  import opened Wrappers
  import opened Text

  // ---------------------------------------------------------------- formatUptime

  const SECONDS_PER_DAY := 24 * 3600

  /** Whole days, hours below 24 and minutes below 60 in a number of seconds. */
  datatype Uptime = Uptime(days: nat, hours: nat, minutes: nat)

  /** `count unit`, with a plural `s` exactly when the count is above one. */
  function UnitText(count: nat, unit: string): string {
    NatToString(count) + " " + unit + (if count > 1 then "s" else "")
  }

  /** The non-zero components, in the order days, hours, minutes. */
  function UptimeParts(u: Uptime): (parts: seq<string>)
    ensures |parts| == (if u.days > 0 then 1 else 0) + (if u.hours > 0 then 1 else 0) + (if u.minutes > 0 then 1 else 0)
  {
    (if u.days > 0 then [UnitText(u.days, "day")] else [])
    + (if u.hours > 0 then [UnitText(u.hours, "hour")] else [])
    + (if u.minutes > 0 then [UnitText(u.minutes, "minute")] else [])
  }

  /** Whole days, then whole hours of the rest, then whole minutes: together within a minute of the seconds. */
  lemma UptimeBounds(seconds: nat, days: nat, hours: nat, minutes: nat)
    requires days == seconds / SECONDS_PER_DAY
    requires hours == seconds % SECONDS_PER_DAY / 3600
    requires minutes == seconds % SECONDS_PER_DAY % 3600 / 60
    ensures days * SECONDS_PER_DAY + hours * 3600 + minutes * 60 <= seconds
    ensures seconds < days * SECONDS_PER_DAY + hours * 3600 + minutes * 60 + 60
    ensures hours < 24 && minutes < 60
  {
    var inDay := seconds % SECONDS_PER_DAY;
    assert seconds == days * SECONDS_PER_DAY + inDay;
    var inHour := inDay % 3600;
    assert inDay == hours * 3600 + inHour && hours < 24;
    assert inHour - minutes * 60 < 60;
  }

  /**
   * `formatUptime(seconds)`: the whole days are taken off first, then the
   * whole hours of what remains, then the whole minutes.
   */
  method FormatUptime(seconds: nat) returns (text: string, ghost u: Uptime)
    ensures u.days * SECONDS_PER_DAY + u.hours * 3600 + u.minutes * 60 <= seconds
    ensures seconds < u.days * SECONDS_PER_DAY + u.hours * 3600 + u.minutes * 60 + 60
    ensures u.hours < 24 && u.minutes < 60
    ensures text == "up " + Join(UptimeParts(u), ", ")
  {
    var rest := seconds;
    var days := rest / SECONDS_PER_DAY;
    rest := rest % SECONDS_PER_DAY;
    var hours := rest / 3600;
    rest := rest % 3600;
    var minutes := rest / 60;
    UptimeBounds(seconds, days, hours, minutes);
    var parts: seq<string> := [];
    if days > 0 {
      parts := parts + [UnitText(days, "day")];
    }
    if hours > 0 {
      parts := parts + [UnitText(hours, "hour")];
    }
    if minutes > 0 {
      parts := parts + [UnitText(minutes, "minute")];
    }
    u := Uptime(days, hours, minutes);
    assert parts == UptimeParts(u);
    text := "up " + Join(parts, ", ");
  }

  /** Below one minute nothing is listed. */
  lemma UnderAMinute(u: Uptime)
    requires u.days == 0 && u.hours == 0 && u.minutes == 0
    ensures "up " + Join(UptimeParts(u), ", ") == "up "
  {
  }

  /** With every component present the text lists days, hours and minutes in that order, separated by `, `. */
  lemma AllComponentsListed(u: Uptime)
    requires u.days > 0 && u.hours > 0 && u.minutes > 0
    ensures "up " + Join(UptimeParts(u), ", ")
            == "up " + (UnitText(u.days, "day") + (", " + (UnitText(u.hours, "hour") + (", " + UnitText(u.minutes, "minute")))))
  {
    var parts := UptimeParts(u);
    var d, h, m := UnitText(u.days, "day"), UnitText(u.hours, "hour"), UnitText(u.minutes, "minute");
    assert parts == [d, h, m];
    assert parts[1..][1..] == [m];
    assert Join(parts[1..], ", ") == h + ", " + m;
    assert Join(parts, ", ") == d + ", " + (h + ", " + m);
  }

  /** A count of one is written in the singular, a larger count with a trailing `s`. */
  lemma PluralExactlyAboveOne(count: nat, unit: string)
    requires count >= 1
    ensures count == 1 ==> UnitText(count, unit) == "1 " + unit
    ensures count > 1 ==> |UnitText(count, unit)| == |NatToString(count)| + |unit| + 2
                          && UnitText(count, unit)[|UnitText(count, unit)| - 1] == 's'
  {
    assert NatToString(1) == "1";
  }

  /** Two hours are plural, and the zero days and minutes are left out. */
  lemma PluralHoursAlone()
    ensures "up " + Join(UptimeParts(Uptime(0, 2, 0)), ", ") == "up 2 hours"
  {
    assert UnitText(2, "hour") == "2 hours";
  }

  // ---------------------------------------------------------------- parseSSHSystemInfo

  const NETWORK_PREFIX := "network_iface:"

  /** One address of an interface. */
  datatype NetEntry = NetEntry(address: Option<string>, family: Option<string>, internal: bool)

  /** The flat `key: value` facts, and the addresses grouped per interface, interfaces in order of appearance. */
  datatype HostInfo = HostInfo(flat: map<string, string>, network: map<string, seq<NetEntry>>, interfaces: seq<string>)

  /**
   * One `k:v` part of a network line, as written: `[k, v] = part.split(':')`
   * keeps only the text between the first and the second `:`.
   */
  function PartEntryAsWritten(part: string): (string, Option<string>) {
    var segs := Split(part, ':');
    (segs[0], if |segs| >= 2 then Some(segs[1]) else None)
  }

  /** One `k:v` part of a network line, the value being all the text after the first `:`. */
  function PartEntry(part: string): (e: (string, Option<string>))
    ensures ':' !in e.0
  {
    var segs := Split(part, ':');
    (segs[0], if |segs| >= 2 then Some(Join(segs[1..], ":")) else None)
  }

  /** How a `k:v` part is read: as the source writes it, or with the value taken after the first `:`. */
  datatype PartReader = AsWritten | AfterFirstColon

  function ReadPart(reader: PartReader, part: string): (string, Option<string>) {
    match reader
    case AsWritten => PartEntryAsWritten(part)
    case AfterFirstColon => PartEntry(part)
  }

  /** The `reduce` over the parts: each part sets its key, a later part overwriting an earlier one. */
  function Fields(parts: seq<string>, reader: PartReader): map<string, Option<string>> {
    if parts == [] then map[]
    else
      var e := ReadPart(reader, parts[|parts| - 1]);
      Fields(parts[..|parts| - 1], reader)[e.0 := e.1]
  }

  /** A property read off the accumulated object: `undefined` when never set. */
  function Field(fields: map<string, Option<string>>, key: string): Option<string> {
    if key in fields then fields[key] else None
  }

  /** `inet` is reported as `IPv4`, `inet6` as `IPv6`, anything else as it is. */
  function FamilyName(family: Option<string>): (r: Option<string>)
    ensures family == Some("inet") ==> r == Some("IPv4")
    ensures family == Some("inet6") ==> r == Some("IPv6")
    ensures family != Some("inet") && family != Some("inet6") ==> r == family
  {
    if family == Some("inet") then Some("IPv4")
    else if family == Some("inet6") then Some("IPv6")
    else family
  }

  /** The interface a network line is grouped under; an absent name becomes the property `"undefined"`. */
  function InterfaceKey(fields: map<string, Option<string>>): string {
    Field(fields, "network_iface").GetOr("undefined")
  }

  function EntryOf(fields: map<string, Option<string>>): (e: NetEntry)
    ensures e.internal <==> Field(fields, "internal") == Some("true")
  {
    NetEntry(Field(fields, "address"), FamilyName(Field(fields, "family")), Field(fields, "internal") == Some("true"))
  }

  /** One line of the report, its network parts read by `reader`. */
  function ParseLine(info: HostInfo, line: string, reader: PartReader): HostInfo {
    if StartsWith(line, NETWORK_PREFIX) then
      var fields := Fields(Split(line, '|'), reader);
      var key := InterfaceKey(fields);
      var entry := EntryOf(fields);
      if key in info.network then info.(network := info.network[key := info.network[key] + [entry]])
      else info.(network := info.network[key := [entry]], interfaces := info.interfaces + [key])
    else
      var segs := Split(line, ':');
      if segs[0] != [] && |segs| >= 2 then info.(flat := info.flat[Trim(segs[0]) := Trim(Join(segs[1..], ":"))])
      else info
  }

  /** The lines in order, starting from empty objects. */
  function ParseLines(lines: seq<string>, reader: PartReader): HostInfo {
    if lines == [] then HostInfo(map[], map[], [])
    else ParseLine(ParseLines(lines[..|lines| - 1], reader), lines[|lines| - 1], reader)
  }

  /**
   * `parseSSHSystemInfo(output)`: the `flat` and `network` objects filled
   * line by line, network lines by interface and every other line by its key.
   * With `AsWritten` the parts are read as the source reads them; with
   * `AfterFirstColon` an address holding `:` is kept whole.
   */
  method ParseSSHSystemInfo(output: string, reader: PartReader)
    returns (flat: map<string, string>, network: map<string, seq<NetEntry>>, interfaces: seq<string>)
    ensures HostInfo(flat, network, interfaces) == ParseLines(Split(output, '\n'), reader)
  {
    var lines := Split(output, '\n');
    flat, network, interfaces := map[], map[], [];
    var i := 0;
    while i < |lines|
      invariant 0 <= i <= |lines|
      invariant HostInfo(flat, network, interfaces) == ParseLines(lines[..i], reader)
    {
      var line := lines[i];
      assert lines[..i + 1][..i] == lines[..i];
      ghost var expected := ParseLine(HostInfo(flat, network, interfaces), line, reader);
      if StartsWith(line, NETWORK_PREFIX) {
        var fields := Fields(Split(line, '|'), reader);
        var key := InterfaceKey(fields);
        ghost var before := network;
        if key !in network {
          network := network[key := []];
          interfaces := interfaces + [key];
        }
        network := network[key := network[key] + [EntryOf(fields)]];
        if key in before {
          assert network == before[key := before[key] + [EntryOf(fields)]];
        } else {
          assert [] + [EntryOf(fields)] == [EntryOf(fields)];
        }
      } else {
        var segs := Split(line, ':');
        if segs[0] != [] && |segs| >= 2 {
          flat := flat[Trim(segs[0]) := Trim(Join(segs[1..], ":"))];
        }
      }
      assert HostInfo(flat, network, interfaces) == expected;
      i := i + 1;
    }
    assert lines[..i] == lines;
  }

  /** Every interface is listed once, and the list holds exactly the grouped interfaces. */
  predicate InterfacesListed(info: HostInfo) {
    && (forall k :: k in info.network ==> k in info.interfaces)
    && (forall i :: 0 <= i < |info.interfaces| ==> info.interfaces[i] in info.network)
    && (forall i, j :: 0 <= i < j < |info.interfaces| ==> info.interfaces[i] != info.interfaces[j])
  }

  lemma {:induction false} ParseLinesListsInterfaces(lines: seq<string>, reader: PartReader)
    ensures InterfacesListed(ParseLines(lines, reader))
  {
    if lines != [] {
      ParseLinesListsInterfaces(lines[..|lines| - 1], reader);
    }
  }

  /** A network line appends its entry to its interface's addresses and keeps the other interfaces' addresses. */
  lemma NetworkLineAppends(info: HostInfo, line: string, reader: PartReader)
    requires StartsWith(line, NETWORK_PREFIX)
    ensures var fields := Fields(Split(line, '|'), reader);
      var key := InterfaceKey(fields);
      var after := ParseLine(info, line, reader);
      && after.flat == info.flat
      && after.network[key] == (if key in info.network then info.network[key] else []) + [EntryOf(fields)]
      && (forall k :: k != key ==> (k in after.network <==> k in info.network))
      && (forall k :: k != key && k in info.network ==> after.network[k] == info.network[k])
  {
  }

  /**
   * Any other line sets the trimmed text before its first `:` to the trimmed
   * text after it, which may hold further `:` characters; a later line with
   * the same key overwrites an earlier one.
   */
  lemma FlatLineSets(info: HostInfo, key: string, value: string, reader: PartReader)
    requires !StartsWith(key + ":" + value, NETWORK_PREFIX)
    requires key != [] && ':' !in key
    ensures ParseLine(info, key + ":" + value, reader).flat == info.flat[Trim(key) := Trim(value)]
    ensures ParseLine(info, key + ":" + value, reader).network == info.network
  {
    var line := key + ":" + value;
    assert line == key + [':'] + value;
    SplitAtFirstSeparator(key, value, ':');
    var segs := Split(line, ':');
    assert segs[1..] == Split(value, ':');
    JoinSplit(value, ':');
  }

  /** A line with no `:`, or with nothing before its first `:`, changes nothing. */
  lemma KeylessLineIgnored(info: HostInfo, line: string, reader: PartReader)
    requires !StartsWith(line, NETWORK_PREFIX)
    requires ':' !in line || line[0] == ':'
    ensures ParseLine(info, line, reader) == info
  {
    SplitFirst(line, ':');
    if ':' in line {
      assert IndexOf(line, ':') == 0;
    }
  }

  /** With the value read after the first `:`, any `k:v` part gives back its key and value. */
  lemma PartEntryRoundTrip(key: string, value: string)
    requires ':' !in key
    ensures PartEntry(key + ":" + value) == (key, Some(value))
  {
    var part := key + ":" + value;
    assert part == key + [':'] + value;
    SplitAtFirstSeparator(key, value, ':');
    assert Split(part, ':')[1..] == Split(value, ':');
    JoinSplit(value, ':');
  }

  /**
   * As written, an address holding a `:` is cut at it: an IPv6 address such
   * as `fe80::1` is read as `fe80`.
   */
  lemma AsWrittenTruncatesAddress(head: string, tail: string)
    requires ':' !in head
    ensures PartEntryAsWritten("address:" + head + ":" + tail) == ("address", Some(head))
  {
    var rest := head + ":" + tail;
    assert "address:" + head + ":" + tail == "address" + [':'] + rest;
    SplitAtFirstSeparator("address", rest, ':');
    assert rest == head + [':'] + tail;
    SplitAtFirstSeparator(head, tail, ':');
  }

  /** The IPv6 loopback-style address of the report, as written and as read after the first `:`. */
  lemma Ipv6AddressExample(part: string)
    requires part == "address:fe80::1"
    ensures PartEntryAsWritten(part) == ("address", Some("fe80"))
    ensures PartEntry(part) == ("address", Some("fe80::1"))
  {
    assert part == "address:" + "fe80" + ":" + ":1";
    AsWrittenTruncatesAddress("fe80", ":1");
    assert part == "address" + ":" + "fe80::1";
    PartEntryRoundTrip("address", "fe80::1");
  }

  /** A network line of one interface and one further part splits at its `|` into those two. */
  lemma AddressLineParts(iface: string, part: string)
    requires '|' !in iface && '|' !in part
    ensures Split(NETWORK_PREFIX + iface + "|" + part, '|') == [NETWORK_PREFIX + iface, part]
  {
    var first := NETWORK_PREFIX + iface;
    assert NETWORK_PREFIX + iface + "|" + part == first + ['|'] + part;
    assert '|' !in NETWORK_PREFIX;
    assert '|' !in first;
    SplitAtFirstSeparator(first, part, '|');
    SplitFirst(part, '|');
  }

  /** Both readers read the interface part `network_iface:<iface>` the same way. */
  lemma InterfacePart(iface: string, reader: PartReader)
    requires ':' !in iface
    ensures ReadPart(reader, NETWORK_PREFIX + iface) == ("network_iface", Some(iface))
  {
    assert NETWORK_PREFIX + iface == "network_iface" + [':'] + iface;
    SplitAtFirstSeparator("network_iface", iface, ':');
    SplitFirst(iface, ':');
    assert Join([iface], ":") == iface;
  }

  /** The fields of two parts: the second part's key set over the first's. */
  lemma TwoPartFields(first: string, second: string, reader: PartReader)
    ensures Fields([first, second], reader)
      == map[ReadPart(reader, first).0 := ReadPart(reader, first).1][ReadPart(reader, second).0 := ReadPart(reader, second).1]
  {
    var e := ReadPart(reader, first);
    assert [first][..0] == [];
    assert Fields([first], reader) == Fields([], reader)[e.0 := e.1];
    assert Fields([first], reader) == map[e.0 := e.1];
    assert [first, second][..1] == [first];
  }

  /** A report of one line is that line read into empty objects. */
  lemma OneLineReport(line: string, reader: PartReader)
    ensures ParseLines([line], reader) == ParseLine(HostInfo(map[], map[], []), line, reader)
  {
    assert [line][..0] == [];
  }

  /** The entry a one-part network line `network_iface:<iface>|<part>` is grouped under its interface. */
  lemma SingleAddressLine(iface: string, part: string, reader: PartReader)
    requires ':' !in iface && '|' !in iface && '|' !in part
    requires ReadPart(reader, part).0 != "network_iface"
    ensures var info := ParseLines([NETWORK_PREFIX + iface + "|" + part], reader);
      && info.interfaces == [iface]
      && iface in info.network
      && info.network[iface] == [EntryOf(map["network_iface" := Some(iface)][ReadPart(reader, part).0 := ReadPart(reader, part).1])]
  {
    var line := NETWORK_PREFIX + iface + "|" + part;
    AddressLineParts(iface, part);
    InterfacePart(iface, reader);
    TwoPartFields(NETWORK_PREFIX + iface, part, reader);
    OneLineReport(line, reader);
    assert StartsWith(line, NETWORK_PREFIX) by {
      assert line[..|NETWORK_PREFIX|] == NETWORK_PREFIX;
    }
  }

  /** The entry of a line holding only an interface and an address. */
  lemma AddressOnlyEntry(iface: string, address: string)
    ensures EntryOf(map["network_iface" := Some(iface)]["address" := Some(address)]) == NetEntry(Some(address), None, false)
  {
    var fields := map["network_iface" := Some(iface)]["address" := Some(address)];
    assert fields.Keys == {"network_iface", "address"};
    assert "family" !in fields && "internal" !in fields;
  }

  /**
   * The report line of an interface with an IPv6 address: as written the
   * interface's address is `fe80`, read after the first `:` it is `fe80::1`.
   */
  lemma Ipv6ReportLine(iface: string, part: string)
    requires ':' !in iface && '|' !in iface && part == "address:fe80::1"
    ensures var info := ParseLines([NETWORK_PREFIX + iface + "|" + part], AsWritten);
      iface in info.network && info.network[iface] == [NetEntry(Some("fe80"), None, false)]
    ensures var info := ParseLines([NETWORK_PREFIX + iface + "|" + part], AfterFirstColon);
      iface in info.network && info.network[iface] == [NetEntry(Some("fe80::1"), None, false)]
  {
    Ipv6AddressExample(part);
    assert '|' !in part;
    assert ReadPart(AsWritten, part) == ("address", Some("fe80"));
    assert ReadPart(AfterFirstColon, part) == ("address", Some("fe80::1"));
    SingleAddressLine(iface, part, AsWritten);
    SingleAddressLine(iface, part, AfterFirstColon);
    AddressOnlyEntry(iface, "fe80");
    AddressOnlyEntry(iface, "fe80::1");
  }

  // ---------------------------------------------------------------- getSSHDependencies

  datatype DependencyStatus = DependencyStatus(installed: bool, version: Option<string>)

  /** The status and version of a line split at `:`: a version only for an installed dependency that reports one. */
  function DependencyEntry(segs: seq<string>): (d: DependencyStatus)
    ensures d.installed <==> |segs| >= 2 && segs[1] == "installed"
    ensures d.version.Some? ==> d.installed && d.version.value != []
  {
    var installed := |segs| >= 2 && segs[1] == "installed";
    var version := if |segs| >= 3 then Trim(Join(segs[2..], ":")) else "";
    DependencyStatus(installed, if installed && version != [] then Some(version) else None)
  }

  /** One probe line: blank lines and lines with nothing before the first `:` are skipped. */
  function DependencyLine(line: string): (r: Option<(string, DependencyStatus)>)
    ensures r.Some? ==> r.value.0 != [] && ':' !in r.value.0
  {
    if Trim(line) == [] then None
    else
      var segs := Split(line, ':');
      if segs[0] == [] then None else Some((segs[0], DependencyEntry(segs)))
  }

  function DependencyLines(lines: seq<string>): map<string, DependencyStatus> {
    if lines == [] then map[]
    else
      var acc := DependencyLines(lines[..|lines| - 1]);
      var parsed := DependencyLine(lines[|lines| - 1]);
      if parsed.Some? then acc[parsed.value.0 := parsed.value.1] else acc
  }

  /** The loop of `getSSHDependencies` over the probe's output, a later line for a name overwriting an earlier one. */
  method ParseDependencies(output: string) returns (deps: map<string, DependencyStatus>)
    ensures deps == DependencyLines(Split(output, '\n'))
  {
    var lines := Split(output, '\n');
    deps := map[];
    var i := 0;
    while i < |lines|
      invariant 0 <= i <= |lines|
      invariant deps == DependencyLines(lines[..i])
    {
      assert lines[..i + 1][..i] == lines[..i];
      var line := lines[i];
      i := i + 1;
      if Trim(line) == [] {
        continue;
      }
      var segs := Split(line, ':');
      if segs[0] == [] {
        continue;
      }
      deps := deps[segs[0] := DependencyEntry(segs)];
    }
    assert lines[..i] == lines;
  }

  /** A dependency that is not installed never has a version. */
  lemma {:induction false} NoVersionWithoutInstall(lines: seq<string>)
    ensures forall n :: (n in DependencyLines(lines) && !DependencyLines(lines)[n].installed
      ==> DependencyLines(lines)[n].version.None?)
  {
    if lines != [] {
      NoVersionWithoutInstall(lines[..|lines| - 1]);
    }
  }

  /** A line that starts with a name and a `:` is read under that name. */
  lemma NamedLine(name: string, rest: string)
    requires name != [] && ':' !in name
    ensures DependencyLine(name + ":" + rest) == Some((name, DependencyEntry([name] + Split(rest, ':'))))
  {
    var line := name + ":" + rest;
    assert line == name + [':'] + rest;
    SplitAtFirstSeparator(name, rest, ':');
    assert line[|name|] == ':';
    TrimNonEmpty(line, |name|);
  }

  /** Segments holding a status and then a version's parts read as that status and the trimmed version. */
  lemma EntryOfSegments(segs: seq<string>, status: string, version: string)
    requires |segs| >= 3 && segs[1] == status && Join(segs[2..], ":") == version
    ensures DependencyEntry(segs)
      == DependencyStatus(status == "installed", if status == "installed" && Trim(version) != [] then Some(Trim(version)) else None)
  {
  }

  /** After the name, a status and a `:`, the version is the rest of the line, trimmed. */
  lemma StatusAndVersion(name: string, status: string, version: string)
    requires ':' !in status
    ensures DependencyEntry([name] + Split(status + ":" + version, ':'))
      == DependencyStatus(status == "installed", if status == "installed" && Trim(version) != [] then Some(Trim(version)) else None)
  {
    assert status + ":" + version == status + [':'] + version;
    SplitAtFirstSeparator(status, version, ':');
    var rest := Split(version, ':');
    var segs := [name] + ([status] + rest);
    assert [name] + Split(status + ":" + version, ':') == segs;
    assert segs[2..] == rest;
    JoinSplit(version, ':');
    EntryOfSegments(segs, status, version);
  }

  /**
   * A line the probe prints, `name:status:version`, reads back under its
   * name, installed exactly for the status `installed`, and with the
   * version, trimmed, only when installed and not blank.
   */
  lemma ProbeLineRead(name: string, status: string, version: string)
    requires name != [] && ':' !in name && ':' !in status
    ensures DependencyLine(name + ":" + (status + ":" + version))
      == Some((name, DependencyStatus(status == "installed", if status == "installed" && Trim(version) != [] then Some(Trim(version)) else None)))
  {
    NamedLine(name, status + ":" + version);
    StatusAndVersion(name, status, version);
  }
}
