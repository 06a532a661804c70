/** The configuration files of the tank (BlynkTank/CTank.cpp): `/network.cfg`
    and `/tank.cfg`, one `<tag><value>` line per setting, read line by line
    by `readNetworkConfigFile` and `readTankConfigFile`.

    A file is modelled as the sequence of lines `readStringUntil('\n')`
    returns. Both readers run the same loop: a line is matched against the
    tags in the order of their if/else-if chain, the first tag it starts
    with wins, and `data.replace(tag, "")` leaves the value; the version
    line stops the reading with the defaults when its value is not the
    expected file version. */
module Config {
  import opened CStrings

  datatype Option<T> = None | Some(value: T)

  /** VERSION_TAG and the tags of /network.cfg. */
  const VersionTag: string := "Version = "
  const WiFiSsidTag: string := "WiFiSSID = "
  const WiFiPasswordTag: string := "WiFiPassword = "
  const HotspotSsidTag: string := "HotspotSSID = "
  const HotspotPasswordTag: string := "HotspotPassword = "
  const BlynkServerTag: string := "BlynkServer = "
  const BlynkPortTag: string := "BlynkPort = "
  const BlynkTokenTag: string := "BlynkToken = "

  /** The tags of /tank.cfg. */
  const ServoMinTag: string := "ServoMin_us = "
  const ServoMaxTag: string := "ServoMax_us = "
  const ServoCenterTag: string := "ServoCenter = "

  /** NETWORK_CFG_FILE_VERSION, equal to TANK_CFG_FILE_VERSION. */
  const FileVersion: string := "1.0.0"

  /** The tags of /network.cfg in the order the reader tries them; tag 0 is
      the version, tag k >= 1 stores field k of NetworkConfig. */
  const NetworkTags: seq<string> :=
    [VersionTag, WiFiSsidTag, WiFiPasswordTag, HotspotSsidTag, HotspotPasswordTag,
     BlynkServerTag, BlynkPortTag, BlynkTokenTag]

  /** The tags of /tank.cfg in the order the reader tries them. */
  const TankTags: seq<string> := [VersionTag, ServoMinTag, ServoMaxTag, ServoCenterTag]

  /** The String members m_wifiSSID, m_wifiPSW, m_hotspotSSID, m_hotspotPSW,
      m_blynkServer, m_blynkPort and m_blynkToken. */
  datatype NetworkConfig = NetworkConfig(
    wifiSsid: string, wifiPassword: string,
    hotspotSsid: string, hotspotPassword: string,
    blynkServer: string, blynkPort: string, blynkToken: string)

  /** The uint16_t members m_servoMin_us, m_servoMax_us and m_servoCenter. */
  datatype ServoConfig = ServoConfig(servoMin: U16, servoMax: U16, servoCenter: U16)

  /** `setNetworkConfigDefaults`. */
  const NetworkDefaults: NetworkConfig :=
    NetworkConfig("mySSID", "myPassword", "AUGCMyTank", "", "blynk-cloud.com", "80", "myBlynkToken")

  /** `setTankConfigDefaults`: DEFAULT_SERVO_MIN_US, DEFAULT_SERVO_MAX_US,
      DEFAULT_SERVO_CENTER. */
  const ServoDefaults: ServoConfig := ServoConfig(1000, 2000, 1500)

  /** No tag of the list is a prefix of another, so a line `tag + value`
      starts with its own tag only. */
  ghost predicate PrefixFree(tags: seq<string>)
  {
    forall i, j :: 0 <= i < |tags| && 0 <= j < |tags| && i != j ==> !(tags[i] <= tags[j])
  }

  /** Tags the reader can remove from a line. */
  predicate NonEmptyTags(tags: seq<string>)
  {
    |tags| > 0 && forall k :: 0 <= k < |tags| ==> |tags[k]| > 0
  }

  /** The if/else-if chain on `data.startsWith(tag)`: the index of the
      first tag the line starts with, or None for a line the reader skips. */
  function FirstTag(line: string, tags: seq<string>): (r: Option<nat>)
    ensures r.Some? ==> r.value < |tags| && StartsWith(line, tags[r.value])
    ensures r.Some? ==> forall j :: 0 <= j < r.value ==> !StartsWith(line, tags[j])
    ensures r.None? <==> forall j :: 0 <= j < |tags| ==> !StartsWith(line, tags[j])
  {
    if tags == [] then None
    else if StartsWith(line, tags[0]) then Some(0)
    else match FirstTag(line, tags[1..])
      case None => None
      case Some(k) => Some(k + 1)
  }

  /** A version line whose value is not FileVersion: the reader gives up
      the file and loads the defaults. */
  predicate WrongVersion(line: string, tags: seq<string>)
    requires NonEmptyTags(tags)
  {
    FirstTag(line, tags) == Some(0) && RemoveAll(line, tags[0]) != FileVersion
  }

  predicate NoWrongVersion(lines: seq<string>, tags: seq<string>)
    requires NonEmptyTags(tags)
  {
    forall i :: 0 <= i < |lines| ==> !WrongVersion(lines[i], tags)
  }

  /** A file has no wrong version line when its first line is not one and
      the rest of it has none. */
  lemma NoWrongVersionCons(lines: seq<string>, tags: seq<string>)
    requires NonEmptyTags(tags) && lines != []
    ensures NoWrongVersion(lines, tags) <==> !WrongVersion(lines[0], tags) && NoWrongVersion(lines[1..], tags)
  {
    assert forall i :: 0 <= i < |lines| - 1 ==> lines[1..][i] == lines[i + 1];
  }

  /** The `while (configFile.available())` loop of a configuration reader,
      from configuration c over the lines still to read: a line with
      field tag k >= 1 stores its value in field k with `store`, a version
      line with a value other than FileVersion ends the reading with
      `defaults` (the lines after it are never read), and any other line
      is skipped. A wrong version line anywhere in the file discards every
      other line and the configuration the reading started from. */
  function ReadLines<C>(tags: seq<string>, defaults: C, store: (C, nat, string) -> C,
                        c: C, lines: seq<string>): (r: C)
    requires NonEmptyTags(tags)
    ensures !NoWrongVersion(lines, tags) ==> r == defaults
    decreases |lines|
  {
    if lines == [] then c
    else
      NoWrongVersionCons(lines, tags);
      match FirstTag(lines[0], tags)
      case None => ReadLines(tags, defaults, store, c, lines[1..])
      case Some(k) =>
        var value := RemoveAll(lines[0], tags[k]);
        if k == 0 then
          if value != FileVersion then defaults
          else ReadLines(tags, defaults, store, c, lines[1..])
        else ReadLines(tags, defaults, store, store(c, k, value), lines[1..])
  }

  /** Reading a file in two parts: when the first part has no wrong
      version line, the second part continues from where the first left
      the configuration. */
  lemma {:induction false} ReadLinesAppend<C>(tags: seq<string>, defaults: C,
      store: (C, nat, string) -> C, c: C, a: seq<string>, b: seq<string>)
    requires NonEmptyTags(tags) && NoWrongVersion(a, tags)
    ensures ReadLines(tags, defaults, store, c, a + b)
         == ReadLines(tags, defaults, store, ReadLines(tags, defaults, store, c, a), b)
    decreases |a|
  {
    if a == [] {
      assert a + b == b;
    } else {
      assert (a + b)[0] == a[0] && (a + b)[1..] == a[1..] + b;
      NoWrongVersionCons(a, tags);
      match FirstTag(a[0], tags)
      case None =>
        ReadLinesAppend(tags, defaults, store, c, a[1..], b);
      case Some(k) =>
        var c' := if k == 0 then c else store(c, k, RemoveAll(a[0], tags[k]));
        ReadLinesAppend(tags, defaults, store, c', a[1..], b);
    }
  }

  /** A line that starts with no known tag is ignored wherever it stands. */
  lemma UnknownLineIgnored<C>(tags: seq<string>, defaults: C,
      store: (C, nat, string) -> C, c: C, a: seq<string>, line: string, b: seq<string>)
    requires NonEmptyTags(tags) && FirstTag(line, tags).None?
    ensures ReadLines(tags, defaults, store, c, a + [line] + b)
         == ReadLines(tags, defaults, store, c, a + b)
  {
    if NoWrongVersion(a, tags) {
      assert a + [line] + b == a + ([line] + b);
      ReadLinesAppend(tags, defaults, store, c, a, [line] + b);
      ReadLinesAppend(tags, defaults, store, c, a, b);
      assert ([line] + b)[1..] == b;
    } else {
      var i :| 0 <= i < |a| && WrongVersion(a[i], tags);
      assert (a + [line] + b)[i] == a[i] && (a + b)[i] == a[i];
    }
  }

  /** A line `tags[k] + value` is recognised by its own tag. */
  lemma TagLine(tags: seq<string>, k: nat, value: string)
    requires PrefixFree(tags) && k < |tags|
    ensures FirstTag(tags[k] + value, tags) == Some(k)
  {
    assert (tags[k] + value)[..|tags[k]|] == tags[k];
  }

  /** The version line the writers print is accepted and changes nothing. */
  lemma VersionLine<C>(tags: seq<string>, defaults: C, store: (C, nat, string) -> C,
      c: C, rest: seq<string>)
    requires NonEmptyTags(tags) && PrefixFree(tags) && tags[0] == VersionTag
    ensures ReadLines(tags, defaults, store, c, [VersionTag + FileVersion] + rest)
         == ReadLines(tags, defaults, store, c, rest)
  {
    TagLine(tags, 0, FileVersion);
    RemoveTag(VersionTag, FileVersion);
    assert ([VersionTag + FileVersion] + rest)[1..] == rest;
  }

  /** Field k, as read by `field`, is not touched by lines that do not
      carry tag k, when storing any other field leaves it alone. */
  lemma {:induction false} FieldUntouched<C, V>(tags: seq<string>, defaults: C,
      store: (C, nat, string) -> C, field: (C, nat) -> V, c: C, lines: seq<string>, k: nat)
    requires NonEmptyTags(tags) && NoWrongVersion(lines, tags)
    requires forall i :: 0 <= i < |lines| ==> FirstTag(lines[i], tags) != Some(k)
    requires forall d: C, j: nat, v: string :: j != k ==> field(store(d, j, v), k) == field(d, k)
    ensures field(ReadLines(tags, defaults, store, c, lines), k) == field(c, k)
    decreases |lines|
  {
    if lines != [] {
      NoWrongVersionCons(lines, tags);
      assert forall i :: 0 <= i < |lines| - 1 ==> lines[1..][i] == lines[i + 1];
      match FirstTag(lines[0], tags)
      case None =>
        FieldUntouched(tags, defaults, store, field, c, lines[1..], k);
      case Some(j) =>
        var c' := if j == 0 then c else store(c, j, RemoveAll(lines[0], tags[j]));
        FieldUntouched(tags, defaults, store, field, c', lines[1..], k);
    }
  }

  /** The last line with tag k wins: field k holds what storing that line
      with the tag removed gives, whatever came before it, provided no line
      of the file is a wrong version line. */
  lemma LastLineWins<C, V>(tags: seq<string>, defaults: C,
      store: (C, nat, string) -> C, field: (C, nat) -> V,
      c: C, a: seq<string>, line: string, b: seq<string>, k: nat)
    requires NonEmptyTags(tags) && 1 <= k && FirstTag(line, tags) == Some(k)
    requires NoWrongVersion(a, tags) && NoWrongVersion(b, tags)
    requires forall i :: 0 <= i < |b| ==> FirstTag(b[i], tags) != Some(k)
    requires forall d: C, j: nat, v: string :: j != k ==> field(store(d, j, v), k) == field(d, k)
    ensures field(ReadLines(tags, defaults, store, c, a + [line] + b), k)
         == field(store(ReadLines(tags, defaults, store, c, a), k, RemoveAll(line, tags[k])), k)
  {
    var ca := ReadLines(tags, defaults, store, c, a);
    var cl := store(ca, k, RemoveAll(line, tags[k]));
    assert a + [line] + b == a + ([line] + b);
    ReadLinesAppend(tags, defaults, store, c, a, [line] + b);
    assert ([line] + b)[0] == line && ([line] + b)[1..] == b;
    assert ReadLines(tags, defaults, store, ca, [line] + b) == ReadLines(tags, defaults, store, cl, b);
    FieldUntouched(tags, defaults, store, field, cl, b, k);
  }

  /** Characters 0, 4, 5 and 7 of a tag: they tell the tags of either
      file apart. */
  function TagKey(t: string): (char, char, char, char)
    requires |t| >= 8
  {
    (t[0], t[4], t[5], t[7])
  }

  /** A tag that is a prefix of another has the same key. */
  lemma TagKeyOfPrefix(a: string, b: string)
    requires |a| >= 8 && a <= b
    ensures TagKey(a) == TagKey(b)
  {
    assert a == b[..|a|];
  }

  /** Tags of eight characters or more with pairwise different keys are
      prefix free. */
  lemma KeyedTagsPrefixFree(tags: seq<string>)
    requires forall i :: 0 <= i < |tags| ==> |tags[i]| >= 8
    requires forall i, j :: 0 <= i < |tags| && 0 <= j < |tags| && i != j ==> TagKey(tags[i]) != TagKey(tags[j])
    ensures PrefixFree(tags)
  {
    forall i, j | 0 <= i < |tags| && 0 <= j < |tags| && i != j
      ensures !(tags[i] <= tags[j])
    {
      if tags[i] <= tags[j] {
        TagKeyOfPrefix(tags[i], tags[j]);
      }
    }
  }

  // ---------------------------------------------------------------- network

  /** The assignment `m_<field> = data` of the network reader for tag k:
      it sets field k and leaves the others alone. */
  function StoreNetwork(c: NetworkConfig, k: nat, value: string): (r: NetworkConfig)
    ensures forall j :: 1 <= j < 8 ==> NetworkField(r, j) == if j == k then value else NetworkField(c, j)
  {
    match k
    case 1 => c.(wifiSsid := value)
    case 2 => c.(wifiPassword := value)
    case 3 => c.(hotspotSsid := value)
    case 4 => c.(hotspotPassword := value)
    case 5 => c.(blynkServer := value)
    case 6 => c.(blynkPort := value)
    case 7 => c.(blynkToken := value)
    case _ => c
  }

  /** Field k of the network configuration, numbered as its tag. */
  function NetworkField(c: NetworkConfig, k: nat): string
  {
    match k
    case 1 => c.wifiSsid
    case 2 => c.wifiPassword
    case 3 => c.hotspotSsid
    case 4 => c.hotspotPassword
    case 5 => c.blynkServer
    case 6 => c.blynkPort
    case 7 => c.blynkToken
    case _ => []
  }

  lemma NetworkTagsPrefixFree()
    ensures NonEmptyTags(NetworkTags) && PrefixFree(NetworkTags)
  {
    KeyedTagsPrefixFree(NetworkTags);
  }

  /** The line loop of `readNetworkConfigFile` from configuration c. */
  function ReadNetworkLines(c: NetworkConfig, lines: seq<string>): (r: NetworkConfig)
    ensures !NoWrongVersion(lines, NetworkTags) ==> r == NetworkDefaults
  {
    NetworkTagsPrefixFree();
    ReadLines(NetworkTags, NetworkDefaults, StoreNetwork, c, lines)
  }

  /** The lines `writeNetworkConfigFile` prints for configuration c (for
      `useDefault`, c is NetworkDefaults). */
  function NetworkFileLines(c: NetworkConfig): (lines: seq<string>)
    ensures |lines| == |NetworkTags| && lines[0] == VersionTag + FileVersion
    ensures forall k :: 1 <= k < |NetworkTags| ==> lines[k] == NetworkTags[k] + NetworkField(c, k)
  {
    [VersionTag + FileVersion,
     WiFiSsidTag + c.wifiSsid, WiFiPasswordTag + c.wifiPassword,
     HotspotSsidTag + c.hotspotSsid, HotspotPasswordTag + c.hotspotPassword,
     BlynkServerTag + c.blynkServer, BlynkPortTag + c.blynkPort, BlynkTokenTag + c.blynkToken]
  }

  /** The last line with a field's tag wins: the field holds that line
      with the tag removed, whatever came before it, provided no line of
      the file is a wrong version line. */
  lemma NetworkLastLineWins(c: NetworkConfig, a: seq<string>, line: string, b: seq<string>, k: nat)
    requires 1 <= k < 8 && FirstTag(line, NetworkTags) == Some(k)
    requires NoWrongVersion(a, NetworkTags) && NoWrongVersion(b, NetworkTags)
    requires forall i :: 0 <= i < |b| ==> FirstTag(b[i], NetworkTags) != Some(k)
    ensures NetworkField(ReadNetworkLines(c, a + [line] + b), k) == RemoveAll(line, NetworkTags[k])
  {
    NetworkTagsPrefixFree();
    LastLineWins(NetworkTags, NetworkDefaults, StoreNetwork, NetworkField, c, a, line, b, k);
  }

  /** A network configuration that can be written and read back: no
      value contains its own tag, and no value contains a line break (the
      reader splits the file at '\n'). */
  ghost predicate TagFreeNetwork(c: NetworkConfig)
  {
    forall k :: 1 <= k < |NetworkTags| ==>
      !Occurs(NetworkField(c, k), NetworkTags[k]) && '\n' !in NetworkField(c, k)
  }

  /** One line `tags[k] + value` of the reader: stores value in field k. */
  lemma NetworkLine(c: NetworkConfig, k: nat, value: string, rest: seq<string>)
    requires 1 <= k < 8 && !Occurs(value, NetworkTags[k])
    ensures ReadNetworkLines(c, [NetworkTags[k] + value] + rest)
         == ReadNetworkLines(StoreNetwork(c, k, value), rest)
  {
    NetworkTagsPrefixFree();
    TagLine(NetworkTags, k, value);
    RemoveTag(NetworkTags[k], value);
    assert ([NetworkTags[k] + value] + rest)[1..] == rest;
  }

  /** The lines of the network file from field k on, read from a
      configuration whose fields before k already hold c's values, give c. */
  lemma {:induction false} NetworkFileSuffix(cur: NetworkConfig, c: NetworkConfig, k: nat)
    requires 1 <= k <= 8 && TagFreeNetwork(c)
    requires forall j :: 1 <= j < k ==> NetworkField(cur, j) == NetworkField(c, j)
    ensures ReadNetworkLines(cur, NetworkFileLines(c)[k..]) == c
    decreases 8 - k
  {
    var lines := NetworkFileLines(c);
    if k == 8 {
      assert lines[k..] == [];
      assert NetworkField(cur, 1) == NetworkField(c, 1);
      assert NetworkField(cur, 2) == NetworkField(c, 2);
      assert NetworkField(cur, 3) == NetworkField(c, 3);
      assert NetworkField(cur, 4) == NetworkField(c, 4);
      assert NetworkField(cur, 5) == NetworkField(c, 5);
      assert NetworkField(cur, 6) == NetworkField(c, 6);
      assert NetworkField(cur, 7) == NetworkField(c, 7);
    } else {
      var value := NetworkField(c, k);
      assert lines[k..] == [NetworkTags[k] + value] + lines[k + 1..];
      NetworkLine(cur, k, value, lines[k + 1..]);
      var next := StoreNetwork(cur, k, value);
      NetworkFileSuffix(next, c, k + 1);
    }
  }

  /** Round trip: reading back the file `writeNetworkConfigFile` writes
      gives the configuration it was written from, whatever the reader
      started from, when no value contains its own tag. */
  lemma NetworkRoundTrip(start: NetworkConfig, c: NetworkConfig)
    requires TagFreeNetwork(c)
    ensures ReadNetworkLines(start, NetworkFileLines(c)) == c
  {
    NetworkTagsPrefixFree();
    var lines := NetworkFileLines(c);
    assert lines == [VersionTag + FileVersion] + lines[1..];
    VersionLine(NetworkTags, NetworkDefaults, StoreNetwork, start, lines[1..]);
    NetworkFileSuffix(start, c, 1);
  }

  /** Why NetworkRoundTrip needs TagFreeNetwork: `replace` removes every
      occurrence of the tag, so an SSID that itself contains the SSID tag
      is read back without it. */
  lemma TagInValueLost(v: string)
    requires |v| < |WiFiSsidTag|
    ensures NetworkField(ReadNetworkLines(NetworkDefaults, [WiFiSsidTag + (WiFiSsidTag + v)]), 1) == v
  {
    NetworkTagsPrefixFree();
    var t := WiFiSsidTag;
    var line := t + (t + v);
    assert NetworkTags[1] == t;
    TagLine(NetworkTags, 1, t + v);
    NetworkLastLineWins(NetworkDefaults, [], line, [], 1);
    assert [] + [line] + [] == [line];
    assert line[..|t|] == t && line[|t|..] == t + v;
    assert (t + v)[..|t|] == t && (t + v)[|t|..] == v;
    assert RemoveAll(t + v, t) == v;
    assert RemoveAll(line, NetworkTags[1]) == v;
  }

  /** `getBlynkPort`: the number `atol` reads from the port setting when it
      is a valid TCP port, 0 otherwise. */
  function BlynkPort(port: string): (p: nat)
    ensures p <= 65535
    ensures p == Atol(port) || p == 0
    ensures 0 <= Atol(port) <= 65535 <==> p == Atol(port)
  {
    var n := Atol(port);
    if n < 0 then 0 else if n > 65535 then 0 else n
  }

  /** A port printed in decimal reads back as itself. */
  lemma BlynkPortOfDecimal(p: nat)
    requires p <= 65535
    ensures BlynkPort(Decimal(p)) == p
  {
    AtolOfDecimal(p, []);
    assert Decimal(p) + [] == Decimal(p);
  }

  /** The default port setting is port 80. */
  lemma DefaultBlynkPort()
    ensures BlynkPort(NetworkDefaults.blynkPort) == 80
  {
    assert Decimal(80) == "80";
    BlynkPortOfDecimal(80);
  }

  // ------------------------------------------------------------------ servo

  /** The assignment `m_<field> = atoi(data)` of the tank reader for tag k,
      with the conversion of `int` to `uint16_t`: it sets field k to the
      number and leaves the others alone. */
  function StoreServo(c: ServoConfig, k: nat, value: string): (r: ServoConfig)
    ensures forall j :: 1 <= j < 4 ==> ServoField(r, j) == if j == k then ToU16(Atol(value)) else ServoField(c, j)
  {
    match k
    case 1 => c.(servoMin := ToU16(Atol(value)))
    case 2 => c.(servoMax := ToU16(Atol(value)))
    case 3 => c.(servoCenter := ToU16(Atol(value)))
    case _ => c
  }

  lemma TankTagsPrefixFree()
    ensures NonEmptyTags(TankTags) && PrefixFree(TankTags)
  {
    KeyedTagsPrefixFree(TankTags);
  }

  /** The line loop of `readTankConfigFile` from configuration c. */
  function ReadTankLines(c: ServoConfig, lines: seq<string>): (r: ServoConfig)
    ensures !NoWrongVersion(lines, TankTags) ==> r == ServoDefaults
  {
    TankTagsPrefixFree();
    ReadLines(TankTags, ServoDefaults, StoreServo, c, lines)
  }

  /** Field k of the servo configuration, numbered as its tag. */
  function ServoField(c: ServoConfig, k: nat): U16
  {
    match k
    case 1 => c.servoMin
    case 2 => c.servoMax
    case _ => c.servoCenter
  }

  /** The lines `writeTankConfigFile` prints (`%u` for each value). */
  function TankFileLines(c: ServoConfig): (lines: seq<string>)
    ensures |lines| == |TankTags| && lines[0] == VersionTag + FileVersion
    ensures forall k :: 1 <= k < |TankTags| ==> lines[k] == TankTags[k] + Decimal(ServoField(c, k))
  {
    [VersionTag + FileVersion,
     ServoMinTag + Decimal(c.servoMin),
     ServoMaxTag + Decimal(c.servoMax),
     ServoCenterTag + Decimal(c.servoCenter)]
  }

  /** One line `tag + "%u"` of the tank reader reads back the number. */
  lemma ServoLine(c: ServoConfig, k: nat, n: U16, rest: seq<string>)
    requires 1 <= k < 4
    ensures ReadTankLines(c, [TankTags[k] + Decimal(n)] + rest)
         == ReadTankLines(StoreServo(c, k, Decimal(n)), rest)
    ensures ToU16(Atol(Decimal(n))) == n
  {
    TankTagsPrefixFree();
    TagLine(TankTags, k, Decimal(n));
    DecimalHasNoTag(n, TankTags[k]);
    RemoveTag(TankTags[k], Decimal(n));
    assert ([TankTags[k] + Decimal(n)] + rest)[1..] == rest;
    AtolOfDecimal(n, []);
    assert Decimal(n) + [] == Decimal(n);
  }

  /** The lines of the tank file from field k on, read from a
      configuration whose fields before k already hold c's values, give c. */
  lemma {:induction false} TankFileSuffix(cur: ServoConfig, c: ServoConfig, k: nat)
    requires 1 <= k <= 4
    requires forall j :: 1 <= j < k ==> ServoField(cur, j) == ServoField(c, j)
    ensures ReadTankLines(cur, TankFileLines(c)[k..]) == c
    decreases 4 - k
  {
    var lines := TankFileLines(c);
    if k == 4 {
      assert lines[k..] == [];
      assert ServoField(cur, 1) == ServoField(c, 1);
      assert ServoField(cur, 2) == ServoField(c, 2);
      assert ServoField(cur, 3) == ServoField(c, 3);
    } else {
      var n := ServoField(c, k);
      assert lines[k..] == [TankTags[k] + Decimal(n)] + lines[k + 1..];
      ServoLine(cur, k, n, lines[k + 1..]);
      var next := StoreServo(cur, k, Decimal(n));
      assert ServoField(next, k) == ToU16(Atol(Decimal(n))) == n;
      forall j | 1 <= j < k
        ensures ServoField(next, j) == ServoField(c, j)
      {
        assert ServoField(next, j) == ServoField(cur, j);
      }
      TankFileSuffix(next, c, k + 1);
    }
  }

  /** Round trip: reading back the file `writeTankConfigFile` writes gives
      the servo settings it was written from, whatever the reader started
      from. */
  lemma TankRoundTrip(start: ServoConfig, c: ServoConfig)
    ensures ReadTankLines(start, TankFileLines(c)) == c
  {
    TankTagsPrefixFree();
    var lines := TankFileLines(c);
    assert lines == [VersionTag + FileVersion] + lines[1..];
    VersionLine(TankTags, ServoDefaults, StoreServo, start, lines[1..]);
    TankFileSuffix(start, c, 1);
  }

  /** The last line with a servo tag wins: the field holds `atoi` of that
      line with the tag removed, narrowed to `uint16_t`, whatever came
      before it, provided no line of the file is a wrong version line. */
  lemma TankLastLineWins(c: ServoConfig, a: seq<string>, line: string, b: seq<string>, k: nat)
    requires 1 <= k < 4 && FirstTag(line, TankTags) == Some(k)
    requires NoWrongVersion(a, TankTags) && NoWrongVersion(b, TankTags)
    requires forall i :: 0 <= i < |b| ==> FirstTag(b[i], TankTags) != Some(k)
    ensures ServoField(ReadTankLines(c, a + [line] + b), k) == ToU16(Atol(RemoveAll(line, TankTags[k])))
  {
    TankTagsPrefixFree();
    LastLineWins(TankTags, ServoDefaults, StoreServo, ServoField, c, a, line, b, k);
  }

  /** The file `writeTankConfigFile(true)` writes, the default servo
      settings, reads back as those settings. */
  lemma DefaultTankFile(start: ServoConfig)
    ensures ReadTankLines(start, TankFileLines(ServoDefaults)) == ServoDefaults
  {
    TankRoundTrip(start, ServoDefaults);
  }

  /** The file `writeNetworkConfigFile(true)` writes, the default network
      settings, reads back as those settings. */
  lemma DefaultNetworkFile(start: NetworkConfig)
    ensures ReadNetworkLines(start, NetworkFileLines(NetworkDefaults)) == NetworkDefaults
  {
    var d := NetworkDefaults;
    forall k | 1 <= k < |NetworkTags|
      ensures !Occurs(NetworkField(d, k), NetworkTags[k]) && '\n' !in NetworkField(d, k)
    {
      if k != 7 {
        NotOccursByFirst(NetworkField(d, k), NetworkTags[k]);
      }
    }
    NetworkRoundTrip(start, d);
  }
}
