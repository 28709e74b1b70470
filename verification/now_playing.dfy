/** The decisions of `now_playing.py`, which prints one line per player about
    what it is playing: its own `.env` reader, the device list built from
    `DEVICE` entries, the quick read of DIDL-Lite metadata, whether the
    player is on a Songcast source and grouped, the name of the sender it
    follows, the radio station, and the summary line. */
module NowPlaying {
  import opened Text
  import EnvFile
  import Urls
  import SongcastGroup

  // ---------------------------------------------------------------- .env

  /** A value without one pair of matching surrounding quotes. */
  function Unquote(val: string): (r: string)
    ensures |r| <= |val|
  {
    if |val| > 0 && ((val[0] == '"' && val[|val| - 1] == '"') || (val[0] == '\'' && val[|val| - 1] == '\'')) then
      if |val| == 1 then "" else val[1..|val| - 1]
    else val
  }

  /** The entry one raw line of the `.env` file holds, if any: blank lines,
      lines starting with `#` and lines without `=` hold none; key and value
      are split at the first `=`, stripped, and the value unquoted.  Unlike
      the group tool, no inline comment is cut off. */
  function Entry(raw: string): Option<(string, string)> {
    var line := Strip(raw);
    if line == [] || StartsWith(line, "#") || '=' !in line then None
    else
      var kv := SplitOnce(line, '=');
      Some((Strip(kv.0), Unquote(Strip(kv.1))))
  }

  /** The entries of the first `n` lines, a later key overwriting an earlier one. */
  function EnvOf(lines: seq<string>, n: nat): map<string, string>
    requires n <= |lines|
  {
    if n == 0 then map[]
    else
      var env := EnvOf(lines, n - 1);
      match Entry(lines[n - 1])
      case Some((k, v)) => env[k := v]
      case None => env
  }

  /** `_load_env`: the lines read one after another into a dictionary. */
  method LoadEnv(lines: seq<string>) returns (env: map<string, string>)
    ensures env == EnvOf(lines, |lines|)
  {
    env := map[];
    for i := 0 to |lines|
      invariant env == EnvOf(lines, i)
    {
      var entry := ReadEntry(lines[i]);
      EnvOfNext(lines, i, entry);
      if entry.Some? {
        env := env[entry.value.0 := entry.value.1];
      }
    }
  }

  /** The dictionary after one more line. */
  lemma EnvOfNext(lines: seq<string>, n: nat, entry: Option<(string, string)>)
    requires n < |lines| && entry == Entry(lines[n])
    ensures EnvOf(lines, n + 1) == if entry.Some? then EnvOf(lines, n)[entry.value.0 := entry.value.1] else EnvOf(lines, n)
  {
  }

  /** One pass of `_load_env`'s loop: the checks that skip a line, then the
      split at the first `=`. */
  method ReadEntry(raw: string) returns (entry: Option<(string, string)>)
    ensures entry == Entry(raw)
  {
    var line := Strip(raw);
    if line == [] || StartsWith(line, "#") {
      return None;
    }
    if '=' !in line {
      return None;
    }
    var kv := SplitOnce(line, '=');
    entry := Some((Strip(kv.0), Unquote(Strip(kv.1))));
  }

  /** A `key=value` line, its value in double quotes or not, is read back as
      that key and value. */
  lemma EntryRoundTrip(key: string, val: string, quoted: bool)
    requires key != [] && Stripped(key) && Stripped(val) && '=' !in key && key[0] != '#'
    requires quoted ==> '"' !in val
    requires !quoted ==> val == [] || !(val[0] == '"' || val[0] == '\'')
    ensures Entry(key + "=" + (if quoted then "\"" + val + "\"" else val)) == Some((key, val))
  {
    var v := if quoted then "\"" + val + "\"" else val;
    var line := key + "=" + v;
    assert line == key + ['='] + v;
    assert line[0] == key[0];
    assert line[|line| - 1] == if v == [] then '=' else v[|v| - 1];
    StripNoop(line);
    assert line[..1] != "#";
    SplitOnceAt(key, '=', v);
    StripNoop(key);
    if quoted {
      assert Stripped(v) by {
        assert v[0] == '"' && v[|v| - 1] == '"';
      }
      StripNoop(v);
      assert v[1..|v| - 1] == val;
    } else {
      StripNoop(v);
    }
  }

  /** A later line for a key overwrites what an earlier one set. */
  lemma LaterEntryWins(lines: seq<string>, n: nat, key: string, val: string)
    requires n < |lines| && Entry(lines[n]) == Some((key, val))
    ensures EnvOf(lines, n + 1) == EnvOf(lines, n)[key := val]
  {
  }

  // ------------------------------------------------------------- devices

  /** A key that names a device: `DEVICE` itself or `DEVICE_…`. */
  predicate IsDeviceKey(k: string) {
    k == "DEVICE" || StartsWith(k, "DEVICE_")
  }

  /** The separators of `re.split(r"[\s,;]+", …)`. */
  predicate IsFieldSep(c: char) { IsSpace(c) || c == ',' || c == ';' }

  /** The first separator at or after `i`, or `|s|`. */
  function NextSep(s: string, i: nat): (e: nat)
    requires i <= |s|
    ensures i <= e <= |s| && (e < |s| ==> IsFieldSep(s[e]))
    ensures forall k :: i <= k < e ==> !IsFieldSep(s[k])
    decreases |s| - i
  {
    if i == |s| || IsFieldSep(s[i]) then i else NextSep(s, i + 1)
  }

  /** The end of the run of separators that starts at `i`. */
  function SepRunEnd(s: string, i: nat): (e: nat)
    requires i <= |s|
    ensures i <= e <= |s| && (e < |s| ==> !IsFieldSep(s[e]))
    ensures forall k :: i <= k < e ==> IsFieldSep(s[k])
    decreases |s| - i
  {
    if i == |s| || !IsFieldSep(s[i]) then i else SepRunEnd(s, i + 1)
  }

  /** `re.split(r"[\s,;]+", s)`: the pieces between maximal runs of separators. */
  function SepSplit(s: string): (r: seq<string>)
    ensures |r| >= 1
    ensures forall k :: 0 <= k < |r| ==> forall j :: 0 <= j < |r[k]| ==> !IsFieldSep(r[k][j])
    decreases |s|
  {
    var e := NextSep(s, 0);
    if e == |s| then [s]
    else
      var f := SepRunEnd(s, e);
      [s[..e]] + SepSplit(s[f..])
  }

  /** The device a `DEVICE` value describes: its first two fields, both non-empty. */
  function DeviceOf(val: string): Option<EnvFile.Endpoint> {
    var line := Strip(val);
    if line == [] then None
    else
      var parts := SepSplit(line);
      if |parts| >= 2 && parts[0] != [] && parts[1] != [] then Some(EnvFile.Endpoint(parts[0], parts[1])) else None
  }

  /** An IP and a UDN separated by any run of spaces, commas or semicolons give that device. */
  lemma DeviceOfPair(ip: string, sep: string, udn: string)
    requires ip != [] && udn != [] && sep != []
    requires forall k :: 0 <= k < |ip| ==> !IsFieldSep(ip[k])
    requires forall k :: 0 <= k < |udn| ==> !IsFieldSep(udn[k])
    requires forall k :: 0 <= k < |sep| ==> IsFieldSep(sep[k])
    ensures DeviceOf(ip + sep + udn) == Some(EnvFile.Endpoint(ip, udn))
  {
    var s := ip + sep + udn;
    assert s[0] == ip[0] && s[|s| - 1] == udn[|udn| - 1];
    StripNoop(s);
    SepSplitPair(ip, sep, udn);
  }

  lemma SepSplitPair(ip: string, sep: string, udn: string)
    requires ip != [] && udn != [] && sep != []
    requires forall k :: 0 <= k < |ip| ==> !IsFieldSep(ip[k])
    requires forall k :: 0 <= k < |udn| ==> !IsFieldSep(udn[k])
    requires forall k :: 0 <= k < |sep| ==> IsFieldSep(sep[k])
    ensures SepSplit(ip + sep + udn) == [ip, udn]
  {
    var s := ip + sep + udn;
    var e, f := |ip|, |ip| + |sep|;
    assert forall k :: 0 <= k < e ==> s[k] == ip[k];
    assert forall k :: e <= k < f ==> s[k] == sep[k - e];
    assert s[..e] == ip;
    assert s[f..] == udn;
    NextSepAt(s, 0, e);
    SepRunEndAt(s, e, f);
    NextSepAt(udn, 0, |udn|);
  }

  /** `NextSep` finds the first separator. */
  lemma {:induction false} NextSepAt(s: string, i: nat, e: nat)
    requires i <= e <= |s| && (e < |s| ==> IsFieldSep(s[e]))
    requires forall k :: i <= k < e ==> !IsFieldSep(s[k])
    ensures NextSep(s, i) == e
    decreases e - i
  {
    if i < e {
      NextSepAt(s, i + 1, e);
    }
  }

  /** `SepRunEnd` finds the end of a run of separators. */
  lemma {:induction false} SepRunEndAt(s: string, i: nat, e: nat)
    requires i <= e <= |s| && (e < |s| ==> !IsFieldSep(s[e]))
    requires forall k :: i <= k < e ==> IsFieldSep(s[k])
    ensures SepRunEnd(s, i) == e
    decreases e - i
  {
    if i < e {
      SepRunEndAt(s, i + 1, e);
    }
  }

  /** The devices of the listed keys, in that order. */
  function DevicesOf(env: map<string, string>, keys: seq<string>): seq<EnvFile.Endpoint>
    requires forall k :: 0 <= k < |keys| ==> keys[k] in env
  {
    if keys == [] then []
    else
      var init := DevicesOf(env, keys[..|keys| - 1]);
      match DeviceOf(env[keys[|keys| - 1]])
      case Some(d) => init + [d]
      case None => init
  }

  /** The device keys of `env`, listed in increasing order. */
  ghost predicate SortedDeviceKeys(env: map<string, string>, keys: seq<string>) {
    StrictlySorted(keys) && forall k :: k in keys <==> k in env && IsDeviceKey(k)
  }

  /** There is one increasing listing of the device keys only, so the devices
      of `load_devices_from_env` do not depend on how the keys are sorted. */
  lemma SortedDeviceKeysUnique(env: map<string, string>, xs: seq<string>, ys: seq<string>)
    requires SortedDeviceKeys(env, xs) && SortedDeviceKeys(env, ys)
    ensures xs == ys
  {
    SortedUnique(xs, ys);
  }

  /** `load_devices_from_env` on the `DEVICE` entries: the device keys taken
      in increasing order, each value that names an IP and a UDN giving a
      device; `None` (a `ValueError`) when no device results. */
  method LoadDevices(env: map<string, string>) returns (devices: Option<seq<EnvFile.Endpoint>>, ghost order: seq<string>)
    ensures SortedDeviceKeys(env, order)
    ensures devices == if DevicesOf(env, order) == [] then None else Some(DevicesOf(env, order))
    ensures devices.None? <==> forall k :: k in env && IsDeviceKey(k) ==> DeviceOf(env[k]).None?
  {
    var remaining := set k | k in env && IsDeviceKey(k);
    var found: seq<EnvFile.Endpoint> := [];
    order := [];
    while remaining != {}
      invariant StrictlySorted(order)
      invariant forall k :: k in order ==> k in env && IsDeviceKey(k) && k !in remaining
      invariant forall k :: k in env && IsDeviceKey(k) ==> k in order || k in remaining
      invariant forall k :: k in remaining ==> k in env && IsDeviceKey(k)
      invariant Below(order, remaining)
      invariant found == DevicesOf(env, order)
      decreases remaining
    {
      LeastExists(remaining);
      var key :| key in remaining && forall x :: x in remaining && x != key ==> Less(key, x);
      var device := DeviceOf(env[key]);
      if device.Some? {
        found := found + [device.value];
      }
      BelowStep(order, remaining, key);
      DevicesOfAppend(env, order, key);
      order := order + [key];
      remaining := remaining - {key};
    }
    devices := if found == [] then None else Some(found);
    NoDevices(env, order);
  }

  /** The listed keys give no device iff none of them names an IP and a UDN. */
  lemma {:induction false} NoDevices(env: map<string, string>, keys: seq<string>)
    requires forall k :: 0 <= k < |keys| ==> keys[k] in env
    ensures DevicesOf(env, keys) == [] <==> forall k :: k in keys ==> DeviceOf(env[k]).None?
  {
    if keys != [] {
      var init := keys[..|keys| - 1];
      NoDevices(env, init);
      assert forall k :: k in keys <==> k in init || k == keys[|keys| - 1];
    }
  }

  /** Every listed key is below every key still to come. */
  predicate Below(order: seq<string>, rest: set<string>) {
    forall i, k :: 0 <= i < |order| && k in rest ==> Less(order[i], k)
  }

  /** Taking the least remaining key keeps the listing increasing. */
  lemma BelowStep(order: seq<string>, rest: set<string>, key: string)
    requires StrictlySorted(order) && Below(order, rest) && key in rest
    requires forall x :: x in rest && x != key ==> Less(key, x)
    ensures StrictlySorted(order + [key]) && Below(order + [key], rest - {key})
  {
    var next := order + [key];
    assert forall i :: 0 <= i < |order| ==> next[i] == order[i];
  }

  /** One more key adds its device, if it names one, at the end. */
  lemma DevicesOfAppend(env: map<string, string>, keys: seq<string>, key: string)
    requires forall k :: 0 <= k < |keys| ==> keys[k] in env
    requires key in env
    ensures DevicesOf(env, keys + [key])
         == DevicesOf(env, keys) + (match DeviceOf(env[key]) case Some(d) => [d] case None => [])
  {
    assert (keys + [key])[..|keys|] == keys;
  }

  // ----------------------------------------------------------- DIDL-Lite

  /** `re.search(r"<tag>([^<]+)</tag>", s)`: the text of the leftmost such
      element, given the opening and closing tags. */
  function FindElement(s: string, open: string, close: string): Option<string> {
    SearchRun(s, open, '<', close, 0)
  }

  /** The four fields `parse_didl` reads. */
  datatype Didl = Didl(title: Option<string>, artist: Option<string>, album: Option<string>, channel: Option<string>)

  const NoDidl := Didl(None, None, None, None)

  /** `parse_didl` up to its XML fallback: no metadata gives no fields; when
      any of the four elements is found, their texts, the channel falling back
      to the title; `None` where `parse_didl` would go on to parse the XML. */
  function ParseDidl(didl: Option<string>): (r: Option<Didl>)
    ensures !Present(didl) ==> r == Some(NoDidl)
    ensures Present(didl) && r.Some? ==> r.value != NoDidl
    ensures Present(didl) ==> var d := Strip(didl.value);
              var title := FindElement(d, "<dc:title>", "</dc:title>");
              var artist := FindElement(d, "<upnp:artist>", "</upnp:artist>");
              var album := FindElement(d, "<upnp:album>", "</upnp:album>");
              var channel := FindElement(d, "<upnp:channelName>", "</upnp:channelName>");
              (r.None? <==> title.None? && artist.None? && album.None? && channel.None?)
              && (r.Some? ==> r.value.title == title && r.value.artist == artist && r.value.album == album
                              && r.value.channel == (if channel.Some? then channel else title))
    ensures r.Some? && r.value.title.Some? ==> r.value.channel.Some?
  {
    if !Present(didl) then Some(NoDidl)
    else
      var d := Strip(didl.value);
      var title := FindElement(d, "<dc:title>", "</dc:title>");
      var artist := FindElement(d, "<upnp:artist>", "</upnp:artist>");
      var album := FindElement(d, "<upnp:album>", "</upnp:album>");
      var channel := FindElement(d, "<upnp:channelName>", "</upnp:channelName>");
      if title.Some? || artist.Some? || album.Some? || channel.Some? then
        Some(Didl(title, artist, album, if channel.Some? then channel else title))
      else None
  }

  /** No element is found where its opening tag never occurs. */
  lemma NoElement(s: string, open: string, close: string)
    requires forall q :: 0 <= q <= |s| ==> !OccursAt(s, open, q)
    ensures FindElement(s, open, close).None?
  {
    SearchRunNone(s, open, '<', close, 0);
  }

  /** A `<upnp:…>` tag does not occur in `<dc:title>text</dc:title>`. */
  lemma NoUpnpTag(t: string, open: string)
    requires '<' !in t && |open| >= 2 && open[0] == '<' && open[1] == 'u'
    ensures var s := "<dc:title>" + t + "</dc:title>"; forall q :: 0 <= q <= |s| ==> !OccursAt(s, open, q)
  {
  }

  /** Metadata holding only a title gives that title, also as the channel. */
  lemma TitleOnly(t: string)
    requires t != [] && '<' !in t
    ensures ParseDidl(Some("<dc:title>" + t + "</dc:title>")) == Some(Didl(Some(t), None, None, Some(t)))
  {
    var s := "<dc:title>" + t + "</dc:title>";
    assert s[0] == '<' && s[|s| - 1] == '>';
    StripNoop(s);
    TitleAt(t);
    NoUpnpTag(t, "<upnp:artist>");
    NoUpnpTag(t, "<upnp:album>");
    NoUpnpTag(t, "<upnp:channelName>");
    NoElement(s, "<upnp:artist>", "</upnp:artist>");
    NoElement(s, "<upnp:album>", "</upnp:album>");
    NoElement(s, "<upnp:channelName>", "</upnp:channelName>");
    ParseTitleOnly(s, t);
  }

  /** The title as the only element found is the title and the channel. */
  lemma ParseTitleOnly(s: string, t: string)
    requires s != [] && Strip(s) == s
    requires FindElement(s, "<dc:title>", "</dc:title>") == Some(t)
    requires FindElement(s, "<upnp:artist>", "</upnp:artist>").None?
    requires FindElement(s, "<upnp:album>", "</upnp:album>").None?
    requires FindElement(s, "<upnp:channelName>", "</upnp:channelName>").None?
    ensures ParseDidl(Some(s)) == Some(Didl(Some(t), None, None, Some(t)))
  {
  }

  lemma TitleAt(t: string)
    requires t != [] && '<' !in t
    ensures var s := "<dc:title>" + t + "</dc:title>"; FindElement(s, "<dc:title>", "</dc:title>") == Some(t)
  {
    var a := "<dc:title>";
    var b := "</dc:title>";
    var s := a + t + b;
    ElementAtMatch([], a, t, b, []);
    assert [] + a + t + b + [] == s;
    SearchRunFirst(s, a, '<', b, 0, 0);
  }

  /** An element `<tag>text</tag>` whose text holds no `<` matches where it starts. */
  lemma ElementAtMatch(pre: string, open: string, v: string, close: string, post: string)
    requires v != [] && '<' !in v && close != [] && close[0] == '<'
    ensures RunAt(pre + open + v + close + post, open, '<', close, |pre|) == Some(v)
  {
    var s := pre + open + v + close + post;
    var j := |pre| + |open|;
    assert forall k :: |pre| <= k < j ==> s[k] == open[k - |pre|];
    assert s[|pre|..j] == open;
    assert forall k :: j <= k < j + |v| ==> s[k] == v[k - j];
    assert s[j + |v|] == '<';
    var e := FindFrom(s, '<', j);
    assert e == j + |v|;
    assert s[j..e] == v;
    assert forall k :: e <= k < e + |close| ==> s[k] == close[k - e];
    assert s[e..e + |close|] == close;
  }

  /** Any element `<tag>text</tag>` present in the metadata is found: the
      search gives the text of the leftmost one. */
  lemma ElementFound(pre: string, open: string, v: string, close: string, post: string)
    requires v != [] && '<' !in v && close != [] && close[0] == '<'
    ensures FindElement(pre + open + v + close + post, open, close).Some?
  {
    var s := pre + open + v + close + post;
    ElementAtMatch(pre, open, v, close, post);
    SearchRunNone(s, open, '<', close, 0);
  }

  // ------------------------------------------------------ query_device

  /** `"songcast"` in the lower-cased source type or name. */
  predicate IsSongcastSource(typ: Option<string>, name: Option<string>) {
    Contains(Lower(OrElse(typ, "")), "songcast") || Contains(Lower(OrElse(name, "")), "songcast")
  }

  /** A source `now_playing` takes for Songcast is also one `songcast_group`
      would pick, when visible: the name test is the same and `songcast_group`
      also accepts the type. */
  lemma SongcastSourceAgrees(typ: Option<string>, name: Option<string>, visible: Option<string>)
    requires IsSongcastSource(typ, name) && SongcastGroup.IsVisible(visible)
    ensures SongcastGroup.LooksLikeSongcast(SongcastGroup.SourceInfo(typ, name, None, visible))
  {
    assert Or(name, None) == name || !Present(name);
  }

  /** The lower-cased text is `"radio"`. */
  predicate IsRadio(s: Option<string>) {
    Lower(OrElse(s, "")) == "radio"
  }

  /** The radio station: the track title when the source type or name is
      `radio` in any case, otherwise none. */
  function RadioStation(typ: Option<string>, name: Option<string>, title: Option<string>): (r: Option<string>)
    ensures IsRadio(typ) || IsRadio(name) ==> r == title
    ensures !IsRadio(typ) && !IsRadio(name) ==> r.None?
  {
    if IsRadio(typ) || IsRadio(name) then title else None
  }

  /** `urlparse(uri).scheme.lower()` for a non-empty Uri, none when the Uri is
      empty or `urlparse` raises (`urlparse` has already lower-cased the scheme). */
  function SchemeOf(uri: Option<string>): (r: Option<string>)
    ensures r.Some? ==> Present(uri) && Urls.UrlParse(uri.value).Some? && r.value == Urls.UrlParse(uri.value).value.scheme
    ensures Present(uri) && Urls.UrlParse(uri.value).Some? ==> r.Some?
  {
    if !Present(uri) then None
    else match Urls.UrlParse(uri.value)
      case None => None
      case Some(p) => Some(p.scheme)
  }

  /** The grouped test of `query_device`: an `ohz` Sender Uri is grouped; an
      `ohsongcast` one only with an active transport state; anything else,
      or no Uri, is not. */
  predicate IsGroupedNow(uri: Option<string>, transport: Option<string>) {
    SchemeOf(uri) == Some("ohz")
    || (Present(uri) && SchemeOf(uri) == Some("ohsongcast") && SongcastGroup.Active(OrElse(transport, "")))
  }

  /** Without a Sender Uri, or with one whose scheme is neither `ohz` nor
      `ohsongcast`, the device is not grouped, whatever its transport state. */
  lemma NotGroupedNow(uri: Option<string>, transport: Option<string>)
    requires SchemeOf(uri) != Some("ohz") && SchemeOf(uri) != Some("ohsongcast")
    ensures !IsGroupedNow(uri, transport)
  {
  }

  /** What `now_playing` calls grouped, `songcast_group` calls grouped too,
      given the same Sender and TransportState replies. */
  lemma GroupedNowIsGrouped(uri: Option<string>, transport: Option<string>)
    requires IsGroupedNow(uri, transport)
    ensures SongcastGroup.IsGrouped(SongcastGroup.Receiver(Some(OrElse(uri, "")), Some(OrElse(transport, ""))))
  {
    if SchemeOf(uri) == Some("ohz") {
      assert SongcastGroup.IsOhz(uri.value);
    }
  }

  /** The converse fails: a receiver playing without a Sender Uri is grouped
      for `songcast_group` but not for `now_playing`. */
  lemma GroupedIsNotGroupedNow()
    ensures SongcastGroup.IsGrouped(SongcastGroup.Receiver(Some(""), Some("playing")))
    ensures !IsGroupedNow(None, Some("playing"))
  {
    assert Lower("playing") == "playing";
  }

  /** `s.strip("/")`. */
  function StripSlashes(s: string): (r: string)
    ensures |r| <= |s|
    ensures r != [] ==> r[0] != '/' && r[|r| - 1] != '/'
    ensures (s == [] || (s[0] != '/' && s[|s| - 1] != '/')) ==> r == s
    decreases |s|
  {
    if s == [] then s
    else if s[0] == '/' then StripSlashes(s[1..])
    else if s[|s| - 1] == '/' then StripSlashes(s[..|s| - 1])
    else s
  }

  /** The sender name from a parsed Sender Uri: the `room` value, else the
      `name` value, keys compared case-insensitively. */
  function SenderFromQuery(query: string): (r: Option<string>)
    ensures Urls.QueryValue(query, "room").Some? ==> r == Urls.QueryValue(query, "room")
    ensures Urls.QueryValue(query, "room").None? ==> r == Urls.QueryValue(query, "name")
  {
    var room := Urls.QueryValue(query, "room");
    if room.Some? then room else Urls.QueryValue(query, "name")
  }

  /** The sender name `query_device` infers from the Sender Uri: from its
      query, else the cached display name of the UDN in its path. */
  function InferSender(uri: Option<string>, cache: map<string, string>): (r: Option<string>)
    ensures r.Some? ==> r.value != []
    ensures !Present(uri) ==> r.None?
    ensures Present(uri) ==> var u := Urls.UrlParse(uri.value);
              && (u.None? ==> r.None?)
              && (u.Some? && Present(SenderFromQuery(u.value.query)) ==> r == SenderFromQuery(u.value.query))
  {
    if !Present(uri) then None
    else match Urls.UrlParse(uri.value)
      case None => None
      case Some(u) =>
        var fromQuery := SenderFromQuery(u.query);
        if Present(fromQuery) then fromQuery
        else
          var udn := StripSlashes(u.path);
          if udn != [] && udn in cache && cache[udn] != [] then Some(cache[udn]) else None
  }

  /** The room and name `songcast_group` puts into a sender URI, read back
      under their lower-cased keys. */
  lemma LoweredSenderParams(name: Option<string>, room: Option<string>)
    ensures var m := Urls.Lowered(SongcastGroup.SenderParams(name, room));
            && ("room" in m <==> Present(room)) && (Present(room) ==> m["room"] == room.value)
            && ("name" in m <==> Present(name)) && (Present(name) ==> m["name"] == name.value)
  {
    assert Lower("room") == "room";
    assert Lower("name") == "name";
    var ps := SongcastGroup.SenderParams(name, room);
    if Present(room) && Present(name) {
      assert ps[..1] == [("room", room.value)];
      assert ps[..1][..0] == [];
      assert "name" !in Urls.Names(ps[..1]);
    } else if Present(room) || Present(name) {
      assert ps[..0] == [];
    }
  }

  /** On a sender URI made by `songcast_group`, the inferred sender is the
      room, else the name; the UDN fallback never applies, because the UDN is
      the URI's network location and its path is empty. */
  lemma SenderOfBuiltUri(udn: string, name: Option<string>, room: Option<string>, cache: map<string, string>)
    requires SongcastGroup.IsNetloc(udn)
    requires Present(name) ==> Urls.Plain(name.value)
    requires Present(room) ==> Urls.Plain(room.value)
    ensures InferSender(Some(SongcastGroup.BuildSenderUri(udn, name, room)), cache)
            == if Present(room) then room else if Present(name) then name else None
  {
    SongcastGroup.SenderUriRoundTrip(udn, name, room);
    LoweredSenderParams(name, room);
    var uri := SongcastGroup.BuildSenderUri(udn, name, room);
    assert uri[0] == 'o';
  }

  // ----------------------------------------------------- format_result

  /** The fields of one device's result that `format_result` reads. */
  datatype Report = Report(
    device: Option<string>, sourceName: Option<string>, sourceType: Option<string>,
    title: Option<string>, artist: Option<string>, album: Option<string>, station: Option<string>,
    isSongcast: bool, isGrouped: bool, transport: Option<string>, status: Option<string>,
    sender: Option<string>, scheme: Option<string>,
    senderUri: Option<string>, senderMeta: Option<string>,
    standby: Option<bool>)

  /** The separator between title and artist: an em dash whose UTF-8 bytes
      were stored as three Windows-1252 characters. */
  const TrackSep := " \U{00E2}\U{20AC}\U{201D} "

  /** The line's label: the device name, noted when in standby. */
  function DeviceLabel(r: Report): (d: string)
    ensures r.standby == Some(true) ==> d == OrElse(r.device, "Device") + " (in standby)"
    ensures r.standby != Some(true) ==> d == OrElse(r.device, "Device")
  {
    OrElse(r.device, "Device") + if r.standby == Some(true) then " (in standby)" else ""
  }

  /** One part of the summary, by the kind of fact it reports. */
  datatype Part =
    | Power(off: bool)
    | SongcastSender(sender: string, scheme: string)
    | GroupedUnknown(scheme: string)
    | NotGrouped(scheme: string)
    | ReceiverState(state: string)
    | ReceiverStatus(status: string)
    | SenderUri(uri: string)
    | SenderMeta(meta: string)
    | Station(station: string)
    | Track(title: string, artist: string)
    | Title(title: string)
    | Album(album: string)
  {
    /** The parts about the Songcast receiver. */
    predicate IsSongcast() {
      SongcastSender? || GroupedUnknown? || NotGrouped? || ReceiverState? || ReceiverStatus? || SenderUri? || SenderMeta?
    }
  }

  /** The text `format_result` writes for a part. */
  function Render(p: Part): (t: string)
    ensures t != []
  {
    match p
    case Power(off) => "Power: " + if off then "Off" else "On"
    case SongcastSender(sender, scheme) => "Songcast Sender: " + sender + " (" + scheme + ")"
    case GroupedUnknown(scheme) => "Songcast: Grouped (" + scheme + ", sender unknown)"
    case NotGrouped(scheme) => "Songcast: Not grouped (" + scheme + ")"
    case ReceiverState(state) => "Receiver: " + state
    case ReceiverStatus(status) => "Status: " + status
    case SenderUri(uri) => "Sender Uri: " + uri
    case SenderMeta(meta) => "Sender Meta: " + meta
    case Station(station) => "Station: " + station
    case Track(title, artist) => "Track: " + title + TrackSep + artist
    case Title(title) => "Title: " + title
    case Album(album) => "Album: " + album
  }

  /** The texts of the parts, in order. */
  function Renders(ps: seq<Part>): (ts: seq<string>)
    ensures |ts| == |ps| && forall k :: 0 <= k < |ts| ==> ts[k] == Render(ps[k])
  {
    if ps == [] then [] else [Render(ps[0])] + Renders(ps[1..])
  }

  /** `", ".join(...)` of the parts' texts, empty exactly when there are no parts. */
  function Summary(ps: seq<Part>): (t: string)
    ensures t == [] <==> ps == []
  {
    if ps == [] then ""
    else
      JoinWithStarts(Renders(ps), ", ");
      JoinWith(Renders(ps), ", ")
  }

  /** The Power part, when the standby state is known. */
  function PowerParts(r: Report): seq<Part> {
    if r.standby.Some? then [Power(r.standby.value)] else []
  }

  /** The Songcast parts, for a Songcast source. */
  function SongcastParts(r: Report): (ps: seq<Part>)
    ensures forall k :: 0 <= k < |ps| ==> ps[k].IsSongcast()
    ensures r.isSongcast <==> ps != []
  {
    if !r.isSongcast then []
    else
      var scheme := OrElse(r.scheme, "unknown");
      if r.isGrouped then
        if Present(r.sender) then [SongcastSender(r.sender.value, scheme)]
        else [GroupedUnknown(scheme)] + (if Present(r.senderUri) then [SenderUri(r.senderUri.value)] else [])
      else [NotGrouped(scheme)] + ReceiverParts(r)
  }

  /** What a Songcast receiver that is not grouped reports besides that:
      its transport state, its status and the raw sender fields, each when
      non-empty. */
  function ReceiverParts(r: Report): (ps: seq<Part>)
    ensures forall k :: 0 <= k < |ps| ==> ps[k].IsSongcast()
  {
    (if Present(r.transport) then [ReceiverState(r.transport.value)] else [])
    + (if Present(r.status) then [ReceiverStatus(r.status.value)] else [])
    + (if Present(r.senderUri) then [SenderUri(r.senderUri.value)] else [])
    + (if Present(r.senderMeta) then [SenderMeta(r.senderMeta.value)] else [])
  }

  /** The Station part, when the station is known. */
  function StationParts(r: Report): seq<Part> {
    if Present(r.station) then [Station(r.station.value)] else []
  }

  /** The Track part when title and artist are known, else the Title part
      when the title is. */
  function TitleParts(r: Report): seq<Part> {
    if Present(r.title) && Present(r.artist) then [Track(r.title.value, r.artist.value)]
    else if Present(r.title) then [Title(r.title.value)]
    else []
  }

  /** The Album part, when the album is known. */
  function AlbumParts(r: Report): seq<Part> {
    if Present(r.album) then [Album(r.album.value)] else []
  }

  /** Everything `format_result` lists, in order. */
  function Parts(r: Report): seq<Part> {
    PowerParts(r) + SongcastParts(r) + StationParts(r) + TitleParts(r) + AlbumParts(r)
  }

  /** `format_result`: the label, the source, then the parts joined by `, `,
      or a note that there is no metadata. */
  method FormatResult(r: Report) returns (line: string)
    ensures line == DeviceLabel(r) + " (" + OrElse(Or(r.sourceName, r.sourceType), "Unknown source") + "): "
                    + if Parts(r) == [] then "No metadata available" else Summary(Parts(r))
  {
    var device := OrElse(r.device, "Device");
    var src := OrElse(Or(r.sourceName, r.sourceType), "Unknown source");
    var parts := CollectParts(r);
    if r.standby == Some(true) {
      device := device + " (in standby)";
    }
    var summary := Summary(parts);
    line := device + " (" + src + "): " + if summary != [] then summary else "No metadata available";
  }

  /** The parts `format_result` appends, step by step. */
  method CollectParts(r: Report) returns (parts: seq<Part>)
    ensures parts == Parts(r)
  {
    parts := [];
    if r.standby.Some? {
      parts := parts + [Power(r.standby.value)];
    }
    assert parts == PowerParts(r);
    parts := AppendSongcast(r, parts);
    parts := AppendTrack(r, parts);
    ghost var before := parts;
    if Present(r.album) {
      parts := parts + [Album(r.album.value)];
    }
    assert parts == before + AlbumParts(r);
  }

  /** The Songcast step of `format_result`. */
  method AppendSongcast(r: Report, parts: seq<Part>) returns (out: seq<Part>)
    ensures out == parts + SongcastParts(r)
  {
    out := parts;
    if r.isSongcast {
      var scheme := OrElse(r.scheme, "unknown");
      if r.isGrouped {
        if Present(r.sender) {
          out := out + [SongcastSender(r.sender.value, scheme)];
        } else {
          out := out + [GroupedUnknown(scheme)];
          if Present(r.senderUri) {
            out := out + [SenderUri(r.senderUri.value)];
          }
        }
      } else {
        out := out + [NotGrouped(scheme)];
        out := AppendReceiver(r, out);
        Associative(parts, [NotGrouped(scheme)], ReceiverParts(r));
      }
    }
  }

  /** The not-grouped receiver step of `format_result`. */
  method AppendReceiver(r: Report, parts: seq<Part>) returns (out: seq<Part>)
    ensures out == parts + ReceiverParts(r)
  {
    out := parts;
    if Present(r.transport) {
      out := out + [ReceiverState(r.transport.value)];
    }
    if Present(r.status) {
      out := out + [ReceiverStatus(r.status.value)];
    }
    if Present(r.senderUri) {
      out := out + [SenderUri(r.senderUri.value)];
    }
    if Present(r.senderMeta) {
      out := out + [SenderMeta(r.senderMeta.value)];
    }
  }

  /** The station and track steps of `format_result`. */
  method AppendTrack(r: Report, parts: seq<Part>) returns (out: seq<Part>)
    ensures out == parts + StationParts(r) + TitleParts(r)
  {
    out := parts;
    if Present(r.station) {
      out := out + [Station(r.station.value)];
    }
    if Present(r.title) && Present(r.artist) {
      out := out + [Track(r.title.value, r.artist.value)];
    } else if Present(r.title) {
      out := out + [Title(r.title.value)];
    }
  }

  /** The Power part comes first, and only when the standby state is known. */
  lemma PartsPower(r: Report)
    ensures r.standby.Some? ==> Parts(r)[0] == Power(r.standby.value)
    ensures r.standby.None? ==> forall k :: 0 <= k < |Parts(r)| ==> !Parts(r)[k].Power?
  {
    var ps := Parts(r);
    var a, b, c, d := PowerParts(r), SongcastParts(r), StationParts(r) + TitleParts(r), AlbumParts(r);
    forall k | 0 <= k < |ps| && r.standby.None? ensures !ps[k].Power? {
      if k < |b| {
        assert ps[k] == b[k];
      } else if k < |b| + |c| {
        assert ps[k] == c[k - |b|];
      } else {
        assert ps[k] == d[k - |b| - |c|];
      }
    }
  }

  /** Songcast parts appear only for a Songcast source, and then say whether
      the receiver is grouped and, when it is and the sender is known, which
      sender it follows. */
  lemma PartsSongcast(r: Report)
    ensures !r.isSongcast ==> forall k :: 0 <= k < |Parts(r)| ==> !Parts(r)[k].IsSongcast()
    ensures r.isSongcast && r.isGrouped && Present(r.sender) ==>
              SongcastSender(r.sender.value, OrElse(r.scheme, "unknown")) in Parts(r)
    ensures r.isSongcast && r.isGrouped && !Present(r.sender) ==> GroupedUnknown(OrElse(r.scheme, "unknown")) in Parts(r)
    ensures r.isSongcast && !r.isGrouped ==> NotGrouped(OrElse(r.scheme, "unknown")) in Parts(r)
  {
    var ps := Parts(r);
    var a, b, c, d := PowerParts(r), SongcastParts(r), StationParts(r) + TitleParts(r), AlbumParts(r);
    if !r.isSongcast {
      forall k | 0 <= k < |ps| ensures !ps[k].IsSongcast() {
        if k < |a| {
          assert ps[k] == a[k];
        } else if k < |a| + |c| {
          assert ps[k] == c[k - |a|];
        } else {
          assert ps[k] == d[k - |a| - |c|];
        }
      }
    } else {
      assert ps[|a|] == b[0];
    }
  }

  /** The station, the track (title and artist) or else the title, and the
      album appear when they are known, the album last. */
  lemma PartsTrack(r: Report)
    ensures Present(r.station) ==> Station(r.station.value) in Parts(r)
    ensures Present(r.title) && Present(r.artist) ==> Track(r.title.value, r.artist.value) in Parts(r)
    ensures Present(r.title) && !Present(r.artist) ==> Title(r.title.value) in Parts(r)
    ensures Present(r.album) ==> Parts(r)[|Parts(r)| - 1] == Album(r.album.value)
  {
    var ps := Parts(r);
    var n := |PowerParts(r) + SongcastParts(r)|;
    if Present(r.station) {
      assert ps[n] == Station(r.station.value);
    }
    if Present(r.title) {
      assert ps[n + |StationParts(r)|] == TitleParts(r)[0];
    }
  }

  /** A title, track or album part appears only when the title or the album is known. */
  lemma PartsTrackAbsent(r: Report)
    ensures !Present(r.title) ==> forall k :: 0 <= k < |Parts(r)| ==> !Parts(r)[k].Track? && !Parts(r)[k].Title?
    ensures !Present(r.album) ==> forall k :: 0 <= k < |Parts(r)| ==> !Parts(r)[k].Album?
  {
    var ps := Parts(r);
    var a, b, c, d, e := PowerParts(r), SongcastParts(r), StationParts(r), TitleParts(r), AlbumParts(r);
    forall k | 0 <= k < |ps|
      ensures (!Present(r.title) ==> !ps[k].Track? && !ps[k].Title?) && (!Present(r.album) ==> !ps[k].Album?)
    {
      if k < |a| {
        assert ps[k] == a[k];
      } else if k < |a| + |b| {
        assert ps[k] == b[k - |a|];
      } else if k < |a| + |b| + |c| {
        assert ps[k] == c[k - |a| - |b|];
      } else if k < |a| + |b| + |c| + |d| {
        assert ps[k] == d[k - |a| - |b| - |c|];
      } else {
        assert ps[k] == e[k - |a| - |b| - |c| - |d|];
      }
    }
  }

  /** `No metadata available` is shown exactly when nothing is known: no
      standby state, no Songcast source, no station, title or album. */
  lemma PartsEmpty(r: Report)
    ensures Parts(r) == [] <==> r.standby.None? && !r.isSongcast && !Present(r.station) && !Present(r.title) && !Present(r.album)
  {
  }
}
