/** The decisions `songcast_group.py` takes while it groups Linn players for
    Songcast: which `.env` entries it reads, the sender URI it makes up for the
    leader, when a follower counts as grouped, which source is Songcast, which
    sender of the follower's sender list is the leader, the order in which
    sender URIs are tried, when one is accepted, and how the followers'
    results add up to the tool's verdict.  Device replies come in as values:
    `None` where a call raised, sequences where the tool polls. */
module SongcastGroup {
  import opened Text
  import EnvFile
  import Urls

  // ---------------------------------------------------------------- .env

  const GroupMasterKeys: set<string> := {"SONGCAST_MASTER"}
  const GroupMemberKeys: set<string> := {"SONGCAST_MEMBERS"}

  /** `_load_env_devices`: the `.env` lines read one after another into the
      devices by key, the master id and the member ids. */
  method LoadEnvDevices(lines: seq<string>) returns (devices: map<string, EnvFile.Endpoint>, masterId: Option<string>, memberIds: seq<string>)
    ensures EnvFile.Config(devices, masterId, memberIds) == EnvFile.Read(lines, |lines|, GroupMasterKeys, GroupMemberKeys)
  {
    var cfg := EnvFile.Empty;
    for i := 0 to |lines|
      invariant cfg == EnvFile.Read(lines, i, GroupMasterKeys, GroupMemberKeys)
    {
      cfg := EnvFile.Absorb(cfg, lines[i], GroupMasterKeys, GroupMemberKeys);
    }
    return cfg.devices, cfg.master, cfg.members;
  }

  /** Unlike the monitor, the group tool knows only `SONGCAST_MASTER`: a
      `SONGCAST_SENDER` line leaves what has been read unchanged. */
  lemma SenderKeyIgnored(cfg: EnvFile.Config, id: string)
    requires Stripped(id) && '#' !in id
    ensures EnvFile.Absorb(cfg, "SONGCAST_SENDER" + "=" + id, GroupMasterKeys, GroupMemberKeys) == cfg
  {
    assert "SONGCAST_SENDER"[0] != "DEVICE"[0];
    assert "SONGCAST_SENDER"[9] != "SONGCAST_MASTER"[9];
    assert "SONGCAST_SENDER"[9] != "SONGCAST_MEMBERS"[9];
    EnvFile.AbsorbOther(cfg, "SONGCAST_SENDER", id, GroupMasterKeys, GroupMemberKeys);
  }

  /** A `SONGCAST_MASTER=<id>` line sets the master id. */
  lemma MasterKeyRead(cfg: EnvFile.Config, id: string)
    requires Stripped(id) && '#' !in id
    ensures EnvFile.Absorb(cfg, "SONGCAST_MASTER" + "=" + id, GroupMasterKeys, GroupMemberKeys) == cfg.(master := Some(id))
  {
    assert "SONGCAST_MASTER"[0] != "DEVICE"[0];
    EnvFile.AbsorbMaster(cfg, "SONGCAST_MASTER", id, GroupMasterKeys, GroupMemberKeys);
  }

  // ---------------------------------------------------------- sender URI

  /** The query parameters of the made-up sender URI: the leader's room, then
      its name, each only when given and not empty. */
  function SenderParams(name: Option<string>, room: Option<string>): seq<(string, string)> {
    (if Present(room) then [("room", room.value)] else []) + (if Present(name) then [("name", name.value)] else [])
  }

  /** `_build_sender_uri`: `ohSongcast://<udn>`, followed by `?` and the
      encoded parameters when there are any. */
  function BuildSenderUri(udn: string, name: Option<string>, room: Option<string>): string {
    var params := SenderParams(name, room);
    Urls.Unparse("ohSongcast", udn, "", if params == [] then None else Some(Urls.Urlencode(params)))
  }

  /** A UDN that can stand as a URL's network location. */
  predicate IsNetloc(udn: string) {
    forall k :: 0 <= k < |udn| ==> !Urls.IsNetlocEnd(udn[k]) && !Urls.IsUnsafe(udn[k]) && udn[k] != '[' && udn[k] != ']'
  }

  /** Parsing the made-up URI gives the `ohsongcast` scheme, the UDN as the
      network location, no path, and a query that holds exactly the room and
      then the name, each when given, or no query at all. */
  lemma SenderUriRoundTrip(udn: string, name: Option<string>, room: Option<string>)
    requires IsNetloc(udn)
    requires Present(name) ==> Urls.Plain(name.value)
    requires Present(room) ==> Urls.Plain(room.value)
    ensures var p := Urls.UrlParse(BuildSenderUri(udn, name, room));
            p.Some? && p.value.scheme == "ohsongcast" && p.value.netloc == udn && p.value.path == ""
            && Urls.ParseQsl(p.value.query) == SenderParams(name, room)
    ensures !Present(name) && !Present(room) ==> Urls.UrlParse(BuildSenderUri(udn, name, room)).value.query == ""
  {
    var params := SenderParams(name, room);
    var query := if params == [] then None else Some(Urls.Urlencode(params));
    Urls.UrlencodeText(params);
    SenderUriParts(udn, query);
    if params == [] {
      assert Split("", '&') == [""];
    } else {
      SenderParamsPlain(name, room);
      Urls.ParseQslUrlencode(params);
    }
  }

  /** `ohSongcast://<udn>` with an optional query parses into its parts. */
  lemma SenderUriParts(udn: string, query: Option<string>)
    requires IsNetloc(udn)
    requires query.Some? ==> Urls.IsQueryText(query.value)
    ensures Urls.UrlParse(Urls.Unparse("ohSongcast", udn, "", query))
         == Some(Urls.Parsed("ohsongcast", udn, "", "", if query.Some? then query.value else "", ""))
  {
    SenderScheme();
    if query.Some? {
      Urls.QueryTextSafe(query.value);
    }
    Urls.UrlParseRoundTrip("ohSongcast", udn, "", query);
  }

  /** `ohSongcast` is a scheme, which `urlparse` reports as `ohsongcast`. */
  lemma SenderScheme()
    ensures Urls.IsScheme("ohSongcast") && Lower("ohSongcast") == "ohsongcast"
  {
    var s := "ohSongcast";
    assert forall k :: 0 <= k < |s| ==> Urls.IsAsciiAlpha(s[k]);
    LowerSender();
  }

  lemma LowerSender()
    ensures Lower("ohSongcast") == "ohsongcast"
  {
    var s, l := "ohSongcast", Lower("ohSongcast");
    forall i | 0 <= i < |s| ensures l[i] == "ohsongcast"[i] {
      assert l[i] == LowerChar(s[i]);
    }
  }

  /** The parameters of the made-up URI are plain when the room and name are. */
  lemma SenderParamsPlain(name: Option<string>, room: Option<string>)
    requires Present(name) ==> Urls.Plain(name.value)
    requires Present(room) ==> Urls.Plain(room.value)
    ensures var params := SenderParams(name, room);
            forall k :: 0 <= k < |params| ==> Urls.Plain(params[k].0) && Urls.Plain(params[k].1) && |params[k].1| > 0
  {
    var r := "room";
    var n := "name";
    assert Urls.Plain(r) by {
      assert forall k :: 0 <= k < |r| ==> Urls.IsAsciiAlpha(r[k]);
    }
    assert Urls.Plain(n) by {
      assert forall k :: 0 <= k < |n| ==> Urls.IsAsciiAlpha(n[k]);
    }
  }

  // ------------------------------------------------------------- grouped

  /** A transport state in which a Songcast receiver is, or is about to be, playing. */
  predicate Active(state: string) {
    Lower(state) in {"playing", "buffering", "connecting"}
  }

  /** A sender URI whose scheme is `ohz`. */
  predicate IsOhz(uri: string) {
    uri != [] && var p := Urls.UrlParse(uri); p.Some? && p.value.scheme == "ohz"
  }

  /** What a follower's Receiver service says, if it has one: the Uri of its
      Sender action and its TransportState, each `None` when the call raised. */
  datatype ReceiverView = NoReceiver | Receiver(senderUri: Option<string>, transport: Option<string>)

  /** `_is_grouped`: an `ohz` sender URI means grouped whatever the transport
      state; otherwise an active transport state means grouped whatever the
      scheme; without a Receiver service the follower is not grouped. */
  function IsGrouped(view: ReceiverView): (r: bool)
    ensures view.NoReceiver? ==> !r
    ensures view.Receiver? && view.senderUri.Some? && IsOhz(view.senderUri.value) ==> r
    ensures view.Receiver? && view.transport.Some? && Active(view.transport.value) ==> r
    ensures r ==> view.Receiver? && ((view.senderUri.Some? && IsOhz(view.senderUri.value))
                                     || (view.transport.Some? && Active(view.transport.value)))
  {
    match view
    case NoReceiver => false
    case Receiver(sender, transport) =>
      if sender.Some? && IsOhz(sender.value) then true
      else transport.Some? && Active(transport.value)
  }

  /** A follower whose sender is the leader's `ohz://<host>/<path>` URI is grouped. */
  lemma OhzSenderGrouped(host: string, path: string, transport: Option<string>)
    requires IsNetloc(host)
    requires forall k :: 0 <= k < |path| ==> path[k] != '?' && path[k] != '#' && path[k] != ';' && !Urls.IsUnsafe(path[k])
    requires |path| == 0 || path[0] == '/'
    ensures IsGrouped(Receiver(Some(Urls.Unparse("ohz", host, path, None)), transport))
  {
    assert Urls.IsScheme("ohz") by {
      var s := "ohz";
      assert forall k :: 0 <= k < |s| ==> Urls.IsAsciiAlpha(s[k]);
    }
    assert Lower("ohz") == "ohz";
    Urls.UrlParseRoundTrip("ohz", host, path, None);
  }

  // ------------------------------------------------------ Songcast source

  /** A reply of the Product service's `Source` action. */
  datatype SourceInfo = SourceInfo(typ: Option<string>, name: Option<string>, systemName: Option<string>, visible: Option<string>)

  /** A device call that raised, or the value it answered. */
  datatype Reply<T> = Raised | Answered(value: T)

  /** `Visible`, stripped and lower-cased, is one of `true`, `1`, `yes`; a
      missing or empty `Visible` reads as `true`. */
  predicate IsVisible(visible: Option<string>) {
    Lower(Strip(OrElse(visible, "true"))) in {"true", "1", "yes"}
  }

  /** A visible source whose name (`Name`, else `SystemName`) mentions Songcast
      or whose type mentions a receiver or Songcast. */
  predicate LooksLikeSongcast(s: SourceInfo) {
    var typ := Lower(OrElse(s.typ, ""));
    var name := Lower(OrElse(Or(s.name, s.systemName), ""));
    IsVisible(s.visible) && (Contains(name, "songcast") || Contains(typ, "receiver") || Contains(typ, "songcast"))
  }

  /** `int(Value or 8)`: a missing or zero `SourceCount` means 8 sources. */
  function SourceCount(value: Option<int>): (n: int)
    ensures value.None? || value == Some(0) ==> n == 8
    ensures value.Some? && value.value != 0 ==> n == value.value
  {
    if value.None? || value.value == 0 then 8 else value.value
  }

  /** Source `i` answered and looks like Songcast; a source beyond the replies
      given is one whose call raised. */
  predicate SongcastAt(sources: seq<Reply<SourceInfo>>, i: int) {
    0 <= i < |sources| && sources[i].Answered? && LooksLikeSongcast(sources[i].value)
  }

  /** No source below `n` looks like Songcast. */
  predicate NoSongcastBelow(sources: seq<Reply<SourceInfo>>, n: int) {
    forall j :: 0 <= j < n ==> !SongcastAt(sources, j)
  }

  lemma NoSongcastNext(sources: seq<Reply<SourceInfo>>, i: int)
    requires 0 <= i && NoSongcastBelow(sources, i) && !SongcastAt(sources, i)
    ensures NoSongcastBelow(sources, i + 1)
  {
  }

  /** `_find_songcast_index`: the first index below the source count whose
      source looks like Songcast; none without a Product service, when
      `SourceCount` raised, or when no such source exists. */
  method FindSongcastIndex(hasProduct: bool, count: Reply<Option<int>>, sources: seq<Reply<SourceInfo>>) returns (r: Option<nat>)
    ensures r.Some? ==> hasProduct && count.Answered? && r.value < SourceCount(count.value) && SongcastAt(sources, r.value)
    ensures r.Some? ==> forall j :: 0 <= j < r.value ==> !SongcastAt(sources, j)
    ensures r.None? && hasProduct && count.Answered? ==> forall j :: 0 <= j < SourceCount(count.value) ==> !SongcastAt(sources, j)
  {
    if !hasProduct || count.Raised? {
      return None;
    }
    var n := SourceCount(count.value);
    var i := 0;
    while i < n
      invariant 0 <= i && (n >= 0 ==> i <= n)
      invariant NoSongcastBelow(sources, i)
    {
      if SongcastAt(sources, i) {
        return Some(i);
      }
      NoSongcastNext(sources, i);
      i := i + 1;
    }
    return None;
  }

  // ---------------------------------------------------------- sender list

  /** A child of an `item` of the receiver's sender list: tag and text (`''` when it has none). */
  type Element = (string, string)

  /** The item's title: the stripped text of its last child whose tag ends in `title`. */
  function Title(children: seq<Element>): Option<string> {
    if children == [] then None
    else
      var last := children[|children| - 1];
      if EndsWith(last.0, "title") then Some(Strip(last.1)) else Title(children[..|children| - 1])
  }

  /** The item's `ohz://` URIs: the texts of its `res` children that start with `ohz://`, in order. */
  function OhzRes(children: seq<Element>): (r: seq<string>)
    ensures |r| <= |children|
    ensures forall k :: 0 <= k < |r| ==> StartsWith(r[k], "ohz://")
  {
    if children == [] then []
    else
      var last := children[|children| - 1];
      var init := OhzRes(children[..|children| - 1]);
      if !EndsWith(last.0, "title") && EndsWith(last.0, "res") && StartsWith(last.1, "ohz://") then init + [last.1] else init
  }

  /** The `ohz://` URIs of all items, in order. */
  function AllOhzRes(items: seq<seq<Element>>): (r: seq<string>)
    ensures forall k :: 0 <= k < |r| ==> StartsWith(r[k], "ohz://")
  {
    if items == [] then [] else AllOhzRes(items[..|items| - 1]) + OhzRes(items[|items| - 1])
  }

  /** An item titled with the leader's room or name that offers an `ohz://` URI. */
  predicate IsLeaderItem(item: seq<Element>, room: Option<string>, name: Option<string>) {
    var title := Title(item);
    title.Some? && title.value != [] && OhzRes(item) != []
    && ((Present(room) && title.value == room.value) || (Present(name) && title.value == name.value))
  }

  /** What the sender list says the leader's `ohz://` URI is: the first URI of
      the first leader item, else the first `ohz://` URI of any item, else none. */
  function SenderMatch(items: seq<seq<Element>>, room: Option<string>, name: Option<string>): Option<string> {
    if exists i :: 0 <= i < |items| && IsLeaderItem(items[i], room, name) then
      var i := FirstLeaderItem(items, room, name);
      Some(OhzRes(items[i])[0])
    else if AllOhzRes(items) == [] then None
    else Some(AllOhzRes(items)[0])
  }

  /** The position of the first leader item. */
  function FirstLeaderItem(items: seq<seq<Element>>, room: Option<string>, name: Option<string>): (i: nat)
    requires exists i :: 0 <= i < |items| && IsLeaderItem(items[i], room, name)
    ensures i < |items| && IsLeaderItem(items[i], room, name)
    ensures forall j :: 0 <= j < i ==> !IsLeaderItem(items[j], room, name)
  {
    if IsLeaderItem(items[0], room, name) then 0
    else 1 + FirstLeaderItem(items[1..], room, name)
  }

  /** Whatever the sender list says is an `ohz://` URI. */
  lemma SenderMatchOhz(items: seq<seq<Element>>, room: Option<string>, name: Option<string>)
    ensures var r := SenderMatch(items, room, name); r.Some? ==> StartsWith(r.value, "ohz://")
  {
  }

  /** The sender-list scan of `_receiver_join`, item by item and child by
      child; the first leader item ends the scan with its first URI. */
  method MatchSenders(items: seq<seq<Element>>, room: Option<string>, name: Option<string>) returns (ohz: Option<string>)
    ensures ohz == SenderMatch(items, room, name)
  {
    var fallbacks: seq<string> := [];
    for i := 0 to |items|
      invariant fallbacks == AllOhzRes(items[..i])
      invariant forall j :: 0 <= j < i ==> !IsLeaderItem(items[j], room, name)
    {
      var title, res := ScanItem(items[i]);
      if title.Some? && title.value != [] && res != []
         && ((Present(room) && title.value == room.value) || (Present(name) && title.value == name.value)) {
        assert IsLeaderItem(items[i], room, name);
        LeaderFound(items, room, name, i);
        return Some(res[0]);
      }
      assert !IsLeaderItem(items[i], room, name);
      AllOhzResStep(items, i);
      fallbacks := fallbacks + res;
    }
    NoLeader(items, room, name);
    return if fallbacks != [] then Some(fallbacks[0]) else None;
  }

  /** Without a leader item the sender list says the first `ohz://` URI of any item. */
  lemma NoLeader(items: seq<seq<Element>>, room: Option<string>, name: Option<string>)
    requires forall j :: 0 <= j < |items| ==> !IsLeaderItem(items[j], room, name)
    ensures AllOhzRes(items[..|items|]) == AllOhzRes(items)
    ensures SenderMatch(items, room, name) == if AllOhzRes(items) == [] then None else Some(AllOhzRes(items)[0])
  {
    assert items[..|items|] == items;
  }

  /** The first leader item decides what the sender list says. */
  lemma LeaderFound(items: seq<seq<Element>>, room: Option<string>, name: Option<string>, i: nat)
    requires i < |items| && IsLeaderItem(items[i], room, name)
    requires forall j :: 0 <= j < i ==> !IsLeaderItem(items[j], room, name)
    ensures SenderMatch(items, room, name) == Some(OhzRes(items[i])[0])
  {
    assert FirstLeaderItem(items, room, name) == i;
  }

  /** One more item adds its `ohz://` URIs at the end. */
  lemma AllOhzResStep(items: seq<seq<Element>>, i: nat)
    requires i < |items|
    ensures AllOhzRes(items[..i + 1]) == AllOhzRes(items[..i]) + OhzRes(items[i])
  {
    assert items[..i + 1][..i] == items[..i];
  }

  /** The element loop over one item: its last title, stripped, and its
      `ohz://` resources in order. */
  method ScanItem(item: seq<Element>) returns (title: Option<string>, res: seq<string>)
    ensures title == Title(item) && res == OhzRes(item)
  {
    title, res := None, [];
    for k := 0 to |item|
      invariant title == Title(item[..k]) && res == OhzRes(item[..k])
    {
      assert item[..k + 1][..k] == item[..k];
      var (tag, txt) := item[k];
      if EndsWith(tag, "title") {
        title := Some(Strip(txt));
      } else if EndsWith(tag, "res") && StartsWith(txt, "ohz://") {
        res := res + [txt];
      }
    }
    assert item[..|item|] == item;
  }

  /** What one of the attempts to read the sender list gave: the items, or
      `None` when the call raised, the list was missing or blank, or its XML
      did not parse. */
  function Discovered(lists: seq<Option<seq<seq<Element>>>>, k: int, room: Option<string>, name: Option<string>): Option<string> {
    if 0 <= k < |lists| && lists[k].Some? then SenderMatch(lists[k].value, room, name) else None
  }

  const SenderListAttempts := 6

  /** The retry loop around the sender-list scan: at most six attempts, the
      first one that finds an `ohz://` URI ends the loop. */
  method DiscoverOhz(lists: seq<Option<seq<seq<Element>>>>, room: Option<string>, name: Option<string>) returns (ohz: Option<string>)
    ensures ohz.Some? ==> StartsWith(ohz.value, "ohz://")
    ensures ohz.None? <==> forall k :: 0 <= k < SenderListAttempts ==> Discovered(lists, k, room, name).None?
    ensures ohz.Some? ==> exists k :: 0 <= k < SenderListAttempts && ohz == Discovered(lists, k, room, name)
                                      && forall j :: 0 <= j < k ==> Discovered(lists, j, room, name).None?
  {
    ohz := None;
    for attempt := 0 to SenderListAttempts
      invariant ohz.None?
      invariant forall j :: 0 <= j < attempt ==> Discovered(lists, j, room, name).None?
    {
      if attempt < |lists| && lists[attempt].Some? {
        ohz := MatchSenders(lists[attempt].value, room, name);
      }
      if ohz.Some? {
        SenderMatchOhz(lists[attempt].value, room, name);
        assert ohz == Discovered(lists, attempt, room, name);
        return;
      }
    }
  }

  // ----------------------------------------------------------- candidates

  /** The multicast `ohz://` URI tried first when the sender list names none. */
  function DefaultOhz(udn: string): string {
    "ohz://239.255.255.250:51972/" + udn
  }

  /** The candidate sender URIs of `_receiver_join`, in the order they are
      tried, and the URI it reports when none is accepted.  `selfUri` is the
      Uri of the leader's own Sender service (`None` when it has none or the
      call raised), `ohz` what the sender list gave. */
  method Candidates(selfUri: Option<string>, ohz: Option<string>, udn: string, name: Option<string>, room: Option<string>)
    returns (cands: seq<string>, uri: string)
    ensures |cands| > 0
    ensures Present(ohz) ==> cands[0] == ohz.value
    ensures !Present(ohz) && udn != [] ==> cands[0] == DefaultOhz(udn)
    ensures !Present(ohz) && udn == [] ==> cands[0] == uri
    ensures |cands| == (if Present(ohz) || udn != [] then 1 else 0) + (if Present(selfUri) then 2 else 1)
    ensures Present(selfUri) ==> uri == selfUri.value && cands[|cands| - 2..] == [uri, uri]
    ensures !Present(selfUri) ==> uri == BuildSenderUri(udn, name, room) && cands[|cands| - 1] == uri
  {
    cands := [];
    var self := selfUri;
    if Present(self) {
      cands := cands + [self.value];
    }
    if !Present(self) {
      uri := BuildSenderUri(udn, name, room);
    } else {
      uri := self.value;
    }
    cands := cands + [uri];
    if Present(ohz) {
      cands := [ohz.value] + cands;
    } else if udn != [] {
      cands := [DefaultOhz(udn)] + cands;
    }
  }

  /** One poll of the follower while a candidate is being tried: its
      TransportState and what `_is_grouped` said. */
  datatype Poll = Poll(state: string, grouped: bool)

  /** A poll that accepts the candidate: the follower is grouped, or the
      candidate is an `ohz://` URI and the transport state is active. */
  predicate Accepted(cand: string, p: Poll) {
    p.grouped || (StartsWith(Lower(cand), "ohz://") && Active(p.state))
  }

  const MaxPolls := 8

  /** How trying one candidate went: setting it up raised, or it was polled;
      a list of fewer than eight polls ends where a poll raised. */
  datatype Trial = SetupFailed | Polled(polls: seq<Poll>)

  /** The trial of candidate `c`; candidates beyond the trials given failed to set up. */
  function TrialOf(trials: seq<Trial>, c: int): Trial {
    if 0 <= c < |trials| then trials[c] else SetupFailed
  }

  /** One of the first eight polls of the trial accepts the candidate. */
  predicate Accepts(cand: string, t: Trial) {
    t.Polled? && exists k :: 0 <= k < |t.polls| && k < MaxPolls && Accepted(cand, t.polls[k])
  }

  /** No candidate below `n` is accepted. */
  predicate NoneAccepted(cands: seq<string>, trials: seq<Trial>, n: int)
    requires n <= |cands|
  {
    forall c :: 0 <= c < n ==> !Accepts(cands[c], TrialOf(trials, c))
  }

  lemma NoneAcceptedNext(cands: seq<string>, trials: seq<Trial>, c: int)
    requires 0 <= c < |cands| && NoneAccepted(cands, trials, c) && !Accepts(cands[c], TrialOf(trials, c))
    ensures NoneAccepted(cands, trials, c + 1)
  {
  }

  /** The polls of one trial, stopping at the first that accepts the candidate. */
  method PollCandidate(cand: string, t: Trial) returns (ok: bool)
    ensures ok <==> Accepts(cand, t)
  {
    ok := false;
    if t.SetupFailed? {
      return;
    }
    var k := 0;
    while k < MaxPolls && k < |t.polls|
      invariant 0 <= k <= MaxPolls
      invariant forall j :: 0 <= j < k && j < |t.polls| ==> !Accepted(cand, t.polls[j])
    {
      if Accepted(cand, t.polls[k]) {
        return true;
      }
      k := k + 1;
    }
  }

  /** The candidate loop of `_receiver_join`: the candidates are tried in order
      and the first accepted one ends the loop and becomes the reported URI;
      `tried` is how many were tried. */
  method TryCandidates(cands: seq<string>, trials: seq<Trial>, uri0: string) returns (ok: bool, uri: string, tried: nat)
    ensures tried <= |cands|
    ensures ok ==> 0 < tried && Accepts(cands[tried - 1], TrialOf(trials, tried - 1)) && uri == cands[tried - 1]
    ensures ok ==> NoneAccepted(cands, trials, tried - 1)
    ensures !ok ==> tried == |cands| && uri == uri0 && NoneAccepted(cands, trials, |cands|)
  {
    ok, uri, tried := false, uri0, 0;
    while tried < |cands|
      invariant tried <= |cands|
      invariant NoneAccepted(cands, trials, tried)
    {
      var cand := cands[tried];
      var accepted := PollCandidate(cand, TrialOf(trials, tried));
      if accepted {
        return true, cand, tried + 1;
      }
      NoneAcceptedNext(cands, trials, tried);
      tried := tried + 1;
    }
  }

  // ---------------------------------------------------------- aggregation

  /** How one follower went: it could not be initialised, or it was configured
      (`joined` is what `_receiver_join` returned) and then looked at by
      `_is_grouped`. */
  datatype FollowerRun = InitFailed | Configured(joined: bool, finalView: ReceiverView)

  /** A follower whose join ran and left it grouped. */
  predicate Joined(f: FollowerRun) {
    f.Configured? && IsGrouped(f.finalView)
  }

  /** The first `n` followers all joined. */
  predicate AllJoined(followers: seq<FollowerRun>, n: nat)
    requires n <= |followers|
  {
    forall k :: 0 <= k < n ==> Joined(followers[k])
  }

  lemma AllJoinedNext(followers: seq<FollowerRun>, n: nat)
    requires n < |followers|
    ensures AllJoined(followers, n + 1) <==> AllJoined(followers, n) && Joined(followers[n])
  {
  }

  /** The verdict of `create_songcast_group_async`: false without followers or
      when the leader could not be initialised, otherwise true exactly when
      every follower was initialised and is grouped in the end; what the join
      returned does not count. */
  method CreateGroup(leaderReady: bool, followers: seq<FollowerRun>) returns (ok: bool)
    ensures ok <==> |followers| > 0 && leaderReady && AllJoined(followers, |followers|)
  {
    if |followers| == 0 || !leaderReady {
      return false;
    }
    var allOk := true;
    for k := 0 to |followers|
      invariant allOk <==> AllJoined(followers, k)
    {
      AllJoinedNext(followers, k);
      match followers[k]
      case InitFailed =>
        allOk := false;
      case Configured(joined, view) =>
        if !IsGrouped(view) {
          allOk := false;
        }
    }
    return allOk;
  }

  // ----------------------------------------------------------------- main

  /** A follower as `main` passes it on: its IP and, if known, its UDN. */
  datatype Follower = Follower(ip: string, udn: Option<string>)

  /** `--slave-ip` paired with `--slave-udn` by position; IPs beyond the UDNs
      given take the last UDN, or none when no UDN was given. */
  method PairFollowers(ips: seq<string>, udns: seq<string>) returns (followers: seq<Follower>)
    ensures Paired(ips, udns, followers)
  {
    followers := [];
    for i := 0 to |ips|
      invariant |followers| == i
      invariant forall j :: 0 <= j < i ==> followers[j].ip == ips[j]
      invariant forall j :: 0 <= j < i && j < |udns| ==> followers[j].udn == Some(udns[j])
      invariant forall j :: 0 <= j < i && |udns| <= j ==> followers[j].udn == if udns == [] then None else Some(udns[|udns| - 1])
    {
      var udn := if udns != [] && i < |udns| then Some(udns[i]) else if udns != [] then Some(udns[|udns| - 1]) else None;
      followers := followers + [Follower(ips[i], udn)];
    }
  }

  /** One follower per IP, in order, each with the UDN at its position, else
      the last UDN, else none. */
  predicate Paired(ips: seq<string>, udns: seq<string>, followers: seq<Follower>) {
    && |followers| == |ips|
    && (forall i :: 0 <= i < |ips| ==> followers[i].ip == ips[i])
    && (forall i :: 0 <= i < |ips| && i < |udns| ==> followers[i].udn == Some(udns[i]))
    && (forall i :: 0 <= i < |ips| && |udns| <= i ==>
          followers[i].udn == if udns == [] then None else Some(udns[|udns| - 1]))
  }

  /** A `.env` device as a follower. */
  function AsFollower(d: EnvFile.Device): Follower {
    Follower(d.ip, Some(d.udn))
  }

  /** The followers of `main`: the `--slave-ip` arguments when there are any,
      otherwise the devices the `.env` member ids name, in order, ids without
      a device dropped. */
  method ResolveFollowers(ips: seq<string>, udns: seq<string>, devices: map<string, EnvFile.Endpoint>, memberIds: seq<string>)
    returns (followers: seq<Follower>)
    ensures ips != [] ==> Paired(ips, udns, followers)
    ensures ips == [] ==> var known := EnvFile.Known(devices, memberIds);
              |followers| == |known| && forall k :: 0 <= k < |known| ==> followers[k] == AsFollower(known[k])
  {
    if ips != [] {
      followers := PairFollowers(ips, udns);
    } else {
      followers := [];
      for i := 0 to |memberIds|
        invariant var known := EnvFile.Known(devices, memberIds[..i]);
                  |followers| == |known| && forall k :: 0 <= k < |known| ==> followers[k] == AsFollower(known[k])
      {
        assert memberIds[..i + 1] == memberIds[..i] + [memberIds[i]];
        var id := memberIds[i];
        EnvFile.KnownAppend(devices, memberIds[..i], id);
        if id in devices {
          followers := followers + [Follower(devices[id].ip, Some(devices[id].udn))];
        }
      }
      assert memberIds[..|memberIds|] == memberIds;
    }
  }

  /** The leader `main` uses: the `--master-ip` and `--master-udn` arguments,
      each filled in from the `.env` master's device when missing; `None`
      (the tool exits with status 2) when either is still missing. */
  function ResolveMaster(ip: Option<string>, udn: Option<string>, devices: map<string, EnvFile.Endpoint>, masterId: Option<string>)
    : (r: Option<(string, string)>)
    ensures r.Some? ==> r.value.0 != [] && r.value.1 != []
    ensures Present(ip) && Present(udn) ==> r == Some((ip.value, udn.value))
    ensures r.Some? && Present(ip) ==> r.value.0 == ip.value
    ensures r.Some? && Present(udn) ==> r.value.1 == udn.value
    ensures r.Some? && !(Present(ip) && Present(udn)) ==>
              Present(masterId) && masterId.value in devices
              && (!Present(ip) ==> r.value.0 == devices[masterId.value].ip)
              && (!Present(udn) ==> r.value.1 == devices[masterId.value].udn)
    ensures r.None? <==> (!Present(ip) || !Present(udn))
                         && (!Present(masterId) || masterId.value !in devices
                             || (!Present(ip) && devices[masterId.value].ip == [])
                             || (!Present(udn) && devices[masterId.value].udn == []))
  {
    var fromEnv := (!Present(ip) || !Present(udn)) && Present(masterId) && masterId.value in devices;
    var mip := if fromEnv then Or(ip, Some(devices[masterId.value].ip)) else ip;
    var mudn := if fromEnv then Or(udn, Some(devices[masterId.value].udn)) else udn;
    if Present(mip) && Present(mudn) then Some((mip.value, mudn.value)) else None
  }
}
