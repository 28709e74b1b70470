/** The `.env` reader that the Songcast monitor and the group tool share: one
    `KEY=VALUE` setting per line, whole-line and inline `#` comments,
    `DEVICE…=<ip> <udn>` entries, the master id and the comma-separated list of
    member ids.  The two tools differ only in which keys name the master and
    the members, so those come in as parameters. */
module EnvFile {
  import opened Text

  /** A device as a `DEVICE…` entry describes it. */
  datatype Endpoint = Endpoint(ip: string, udn: string)

  /** What has been read so far: the devices by key, the master id and the member ids. */
  datatype Config = Config(devices: map<string, Endpoint>, master: Option<string>, members: seq<string>)

  const Empty: Config := Config(map[], None, [])

  /** The setting one raw line holds, if any: blank lines, lines starting with
      `#` and lines without `=` hold none; an inline comment is cut off; key and
      value are split at the first `=` and stripped. */
  function Setting(raw: string): Option<(string, string)> {
    var line := Strip(raw);
    if line == [] || StartsWith(line, "#") then None
    else
      var cut := if '#' in line then Strip(SplitOnce(line, '#').0) else line;
      if cut == [] || '=' !in cut then None
      else
        var parts := SplitOnce(cut, '=');
        Some((Strip(parts.0), Strip(parts.1)))
  }

  /** A setting's key and value carry no surrounding whitespace and no
      comment, and the key holds no `=`. */
  lemma SettingShape(raw: string)
    requires Setting(raw).Some?
    ensures Stripped(Setting(raw).value.0) && Stripped(Setting(raw).value.1)
    ensures '#' !in Setting(raw).value.0 && '#' !in Setting(raw).value.1
    ensures '=' !in Setting(raw).value.0
  {
    var line := Strip(raw);
    var cut := if '#' in line then Strip(SplitOnce(line, '#').0) else line;
    if '#' in line {
      StripKeeps(SplitOnce(line, '#').0, '#');
    }
    var parts := SplitOnce(cut, '=');
    assert '#' !in parts.0 && '#' !in parts.1 by {
      assert cut == parts.0 + ['='] + parts.1;
    }
    StripKeeps(parts.0, '#');
    StripKeeps(parts.1, '#');
    StripKeeps(parts.0, '=');
    StripMeaning(parts.0);
    StripMeaning(parts.1);
  }

  /** Writing a setting out as `key=value` and reading it back gives it again. */
  lemma SettingRoundTrip(key: string, val: string)
    requires Stripped(key) && Stripped(val)
    requires '#' !in key && '#' !in val && '=' !in key
    ensures Setting(key + "=" + val) == Some((key, val))
  {
    var line := key + "=" + val;
    assert line[0] == if key == [] then '=' else key[0];
    assert line[|line| - 1] == if val == [] then '=' else val[|val| - 1];
    StripNoop(line);
    assert line[..1] != "#";
    assert '#' !in line;
    assert line[|key|] == '=';
    var parts := SplitOnce(line, '=');
    FirstSeparator(key, '=', val, |parts.0|);
    assert parts.0 == key;
    assert parts.1 == val;
    StripNoop(key);
    StripNoop(val);
  }

  /** An inline comment after a setting line is ignored. */
  lemma CommentIgnored(line: string, comment: string)
    requires line != [] && Stripped(line) && '#' !in line
    ensures Setting(line + "#" + comment) == Setting(line)
  {
    var s := Strip(line + "#" + comment);
    CommentStripped(line, comment);
    assert s == line + "#" + s[|line| + 1..];
    var parts := SplitOnce(s, '#');
    FirstSeparator(line, '#', s[|line| + 1..], |parts.0|);
    assert parts.0 == line;
    StripNoop(line);
  }

  /** Stripping a setting line with a comment keeps the line and the `#`. */
  lemma CommentStripped(line: string, comment: string)
    requires line != [] && Stripped(line)
    ensures var s := Strip(line + "#" + comment);
      |s| > |line| && s[..|line|] == line && s[0] == line[0] && s[|line|] == '#'
  {
    var raw := line + "#" + comment;
    StripMeaning(raw);
    assert SpacesFrom(raw, 0) == 0 by {
      assert raw[0] == line[0];
    }
    var s := Strip(raw);
    assert |s| > |line| by {
      assert raw[|line|] == '#';
    }
    assert s[..|line|] == line;
  }

  /** `[v.strip() for v in parts if v.strip()]`. */
  function Kept(parts: seq<string>): (ids: seq<string>)
    ensures forall k :: 0 <= k < |ids| ==> ids[k] != [] && Stripped(ids[k])
    ensures forall k :: 0 <= k < |ids| ==> exists j :: 0 <= j < |parts| && ids[k] == Strip(parts[j])
  {
    if parts == [] then []
    else
      var rest := Kept(parts[1..]);
      var v := Strip(parts[0]);
      StripMeaning(parts[0]);
      if v != [] then [v] + rest else rest
  }

  /** The member ids of a comma-separated value: the stripped pieces, empty ones dropped. */
  function MemberIds(val: string): seq<string> {
    Kept(Split(val, ','))
  }

  /** Ids that are already clean survive `Kept` unchanged. */
  lemma {:induction false} KeptClean(ids: seq<string>)
    requires forall k :: 0 <= k < |ids| ==> ids[k] != [] && Stripped(ids[k])
    ensures Kept(ids) == ids
  {
    if ids != [] {
      var rest := ids[1..];
      assert Kept(rest) == rest by {
        assert forall k :: 0 <= k < |rest| ==> rest[k] == ids[k + 1];
        KeptClean(rest);
      }
      assert Strip(ids[0]) == ids[0] by {
        StripNoop(ids[0]);
      }
    }
  }

  /** Joining clean ids with commas and reading them back gives the same ids, in order. */
  lemma MemberIdsRoundTrip(ids: seq<string>)
    requires forall k :: 0 <= k < |ids| ==> ids[k] != [] && Stripped(ids[k]) && ',' !in ids[k]
    ensures MemberIds(Join(ids, ',')) == ids
  {
    if ids == [] {
      assert Split("", ',') == [""];
      assert Strip("") == "";
    } else {
      SplitJoin(ids, ',');
      KeptClean(ids);
    }
  }

  /** The effect of one raw line on what has been read: a `DEVICE…` key with at
      least two whitespace-separated fields records a device, a master key sets
      the master id, a members key replaces the member ids, anything else is ignored. */
  function Absorb(cfg: Config, raw: string, masterKeys: set<string>, memberKeys: set<string>): Config {
    match Setting(raw)
    case None => cfg
    case Some((key, val)) =>
      if StartsWith(key, "DEVICE") then
        var fields := SplitWs(val);
        if |fields| >= 2 then cfg.(devices := cfg.devices[key := Endpoint(fields[0], fields[1])]) else cfg
      else if key in masterKeys then cfg.(master := Some(Strip(val)))
      else if key in memberKeys then cfg.(members := MemberIds(val))
      else cfg
  }

  /** The first `n` lines read in order. */
  function Read(lines: seq<string>, n: nat, masterKeys: set<string>, memberKeys: set<string>): Config
    requires n <= |lines|
  {
    if n == 0 then Empty else Absorb(Read(lines, n - 1, masterKeys, memberKeys), lines[n - 1], masterKeys, memberKeys)
  }

  /** A `DEVICE…=<ip> <udn>` line records exactly that device under its key. */
  lemma DeviceLine(cfg: Config, key: string, ip: string, udn: string, masterKeys: set<string>, memberKeys: set<string>)
    requires StartsWith(key, "DEVICE") && Stripped(key) && '#' !in key && '=' !in key
    requires IsWord(ip) && IsWord(udn) && '#' !in ip && '#' !in udn
    ensures Absorb(cfg, key + "=" + ip + " " + udn, masterKeys, memberKeys)
         == cfg.(devices := cfg.devices[key := Endpoint(ip, udn)])
  {
    var val := ip + " " + udn;
    assert val[0] == ip[0] && val[|val| - 1] == udn[|udn| - 1];
    assert '#' !in val;
    var raw := key + "=" + val;
    assert key + "=" + ip + " " + udn == raw;
    SettingRoundTrip(key, val);
    SplitWsPair(ip, udn);
    AbsorbDevice(cfg, raw, key, val, masterKeys, memberKeys);
  }

  /** A `<master key>=<id>` line sets the master id. */
  lemma AbsorbMaster(cfg: Config, key: string, id: string, masterKeys: set<string>, memberKeys: set<string>)
    requires key in masterKeys && !StartsWith(key, "DEVICE")
    requires Stripped(key) && Stripped(id) && '#' !in key && '#' !in id && '=' !in key
    ensures Absorb(cfg, key + "=" + id, masterKeys, memberKeys) == cfg.(master := Some(id))
  {
    SettingRoundTrip(key, id);
    StripNoop(id);
  }

  /** A line whose key names neither a device, the master nor the members changes nothing. */
  lemma AbsorbOther(cfg: Config, key: string, val: string, masterKeys: set<string>, memberKeys: set<string>)
    requires key !in masterKeys && key !in memberKeys && !StartsWith(key, "DEVICE")
    requires Stripped(key) && Stripped(val) && '#' !in key && '#' !in val && '=' !in key
    ensures Absorb(cfg, key + "=" + val, masterKeys, memberKeys) == cfg
  {
    SettingRoundTrip(key, val);
  }

  /** How `Absorb` treats a line once its setting is known to be a device entry. */
  lemma AbsorbDevice(cfg: Config, raw: string, key: string, val: string, masterKeys: set<string>, memberKeys: set<string>)
    requires Setting(raw) == Some((key, val)) && StartsWith(key, "DEVICE")
    ensures |SplitWs(val)| >= 2 ==>
      Absorb(cfg, raw, masterKeys, memberKeys) == cfg.(devices := cfg.devices[key := Endpoint(SplitWs(val)[0], SplitWs(val)[1])])
    ensures |SplitWs(val)| < 2 ==> Absorb(cfg, raw, masterKeys, memberKeys) == cfg
  {
  }

  /** A device named in the `.env` file: its id (the `DEVICE…` key), IP and UDN. */
  datatype Device = Device(id: string, ip: string, udn: string)

  /** The devices of the listed ids that have a `DEVICE…` entry, in the listed order. */
  function Known(devices: map<string, Endpoint>, ids: seq<string>): (r: seq<Device>)
    ensures |r| <= |ids|
    ensures forall k :: 0 <= k < |r| ==>
              r[k].id in ids && r[k].id in devices && devices[r[k].id] == Endpoint(r[k].ip, r[k].udn)
    ensures (forall k :: 0 <= k < |ids| ==> ids[k] in devices) ==>
              |r| == |ids| && forall k :: 0 <= k < |ids| ==> r[k].id == ids[k]
  {
    if ids == [] then []
    else
      var rest := Known(devices, ids[1..]);
      if ids[0] in devices then
        var e := devices[ids[0]];
        [Device(ids[0], e.ip, e.udn)] + rest
      else rest
  }

  /** Listing one more id adds its device at the end, when it has one. */
  lemma {:induction false} KnownAppend(devices: map<string, Endpoint>, ids: seq<string>, id: string)
    ensures Known(devices, ids + [id])
         == Known(devices, ids) + (if id in devices then [Device(id, devices[id].ip, devices[id].udn)] else [])
  {
    if ids != [] {
      assert (ids + [id])[1..] == ids[1..] + [id];
      KnownAppend(devices, ids[1..], id);
    }
  }
}

