# openhome-tools in Dafny

This project models the decision and parsing logic of a set of small
command-line tools for Linn / OpenHome network players:

- **LPEC helpers** (`lpec_utils.py`, module `Lpec`). LPEC is Linn's
  line-based control protocol over telnet. This part reads a device's
  `EVENT` reply into a state map of the four recognised variables:
  TransportState, Sender, Status and ProtocolInfo. It also matches polled
  states against an expected state, and tests and summarises a state.
- **Event-stream monitor** (`tests/songcast_monitor.py`, module
  `SongcastMonitor`):
  - `StateAssertion` is a class whose timer and met fields change in place.
  - `DeviceMonitor` keeps a per-device snapshot that each `EVENT` line is
    diffed against. It offers every change to the assertions.
  - The receive loop cuts a growing buffer into lines.
  - The `.env` reader and the URI and state formatters belong here too.
- **Songcast grouping** (`songcast_group.py`, module `SongcastGroup`). It
  covers:
  - the `.env` reader;
  - the made-up `ohSongcast://` sender URI;
  - the grouped test;
  - the choice of the Songcast source;
  - matching the follower's sender list against the leader;
  - the order in which sender URIs are tried, and the poll loop that accepts one;
  - how the followers' results add up to the tool's verdict.
- **Now playing** (`now_playing.py`, module `NowPlaying`). It covers:
  - the `.env` reader and the device list built from `DEVICE` keys;
  - the DIDL-Lite regular-expression fast path;
  - the Songcast and radio tests, and its own grouped test;
  - the sender name inferred from a Sender URI;
  - the one-line report.
- **UDN discovery** (`find_linn_udn.py`, module `FindLinnUdn`). It covers:
  - the dotted-quad check;
  - the `ALIVE Ds <udn>` and `EVENT … ProductName/ProductRoom` read loops;
  - the display name.
- **Source listing** (`query_sources.py`, module `QuerySources`). It covers:
  - the element scan that fills a source's name, type and visibility;
  - the scan for the first `Value` element;
  - the listing with its `(HIDDEN)` and `<- CURRENT` markers.

Two shared modules hold the Python library behaviour the tools rely on:

- `Text` covers `strip`, `split`, `splitlines`, `lower`, `str(n)` and
  `int(s)`, string order, and the searches of the form `Name\s+"([^"]*)"`.
- `Urls` covers `urlparse`, `urlencode` and `parse_qs`.

`EnvFile` holds the `.env` line reader that the monitor and the group tool
share. Each tool reads it with its own set of master and member keys.

Device I/O is passed in as plain values:

- a reply or a stream as its text or its chunks;
- a SOAP or UPnP reply as the `(tag, text)` elements it holds, or `None`
  where the call raised;
- repeated polls as the sequence of their results;
- the clock as a `nat` argument.

Code that updates state in place is modelled imperatively: classes with
`modifies` frames, and loops with invariants. Each method is proved against
a specification function, and the properties are proved about those
functions as lemmas.

## Model

| member | source | states |
|---|---|---|
| Lpec.QueryReceiverState | lpec_utils.py:89-113 | The state is the EVENT lines scanned in order, `None` when nothing was recognised; every key of the result is one of the four variables |
| Lpec.ScanLineOverlays | lpec_utils.py:91-111 | One line lays what it reports over the state gathered so far |
| Lpec.ReportedMeaning | lpec_utils.py:91-111 | A line reports a name iff it is an EVENT line, the name is a recognised variable and the pattern finds it; the value is the one found |
| Lpec.FoundMeaning | lpec_utils.py:96-111 | The text of an event reports exactly the recognised variables the pattern finds, with their values |
| Lpec.PutAllOverlays | lpec_utils.py:96-111 | The four conditional assignments on a state equal their result on an empty state, laid over it |
| Lpec.LastLineWins | lpec_utils.py:91-111 | A recognised variable ends with the value of the last line that reports it |
| Lpec.UnreportedKept | lpec_utils.py:91-111 | A variable no line reports, and any other name, keeps its earlier value |
| Lpec.OverlayLastWins | lpec_utils.py:91-111 | Among layered reports, the last report that has a name decides its value |
| Lpec.OnlyVariables | lpec_utils.py:90-113 | A parsed state holds only the four recognised variables |
| Lpec.EmptyExpectation | lpec_utils.py:152-162 | An empty expectation is met by every non-empty state and by nothing else |
| Lpec.AllMatch | lpec_utils.py:154-159 | The key-by-key loop with early exit answers true iff every expected key has exactly its expected value |
| Lpec.WaitForState | lpec_utils.py:145-167 | Success iff some poll is non-empty and agrees with the expectation, returning the first such poll; otherwise failure with the last poll (`None` for no polls) |
| Lpec.CheckTransportPlaying | lpec_utils.py:181-186 | True iff there is a state and its lowercased TransportState is playing or buffering; connecting and a missing TransportState give false |
| Lpec.CheckSenderUri | lpec_utils.py:206-213 | No state gives `(false, None)`; otherwise the Sender seen (`""` when missing), and a match iff it starts with `<scheme>://`, case-sensitively |
| Lpec.SenderSummary | lpec_utils.py:234-243 | Always `Sender=…`: `Sender=ohz://...` for an ohz sender, `Sender=ohSongcast://...` for an ohSongcast one, `(empty)` exactly for an empty sender, and any other sender cut to 30 characters plus `...`, even when shorter |
| Lpec.SummaryParts | lpec_utils.py:229-246 | One part per variable present among Transport, Sender and Status, in that order and no others; the Sender part is its summary |
| Lpec.FormatStateSummary | lpec_utils.py:226-248 | `No state available` exactly when there is no non-empty state; `No data` when no part applies; otherwise the parts joined with `, ` |
| SongcastMonitor.StateAssertion.constructor | tests/songcast_monitor.py:54-62 | Stores the expected triple and the deadline, not started and not met |
| SongcastMonitor.StateAssertion.Start | tests/songcast_monitor.py:64-66 | Sets the start time and leaves the other fields alone |
| SongcastMonitor.StateAssertion.Check | tests/songcast_monitor.py:68-78 | True iff not yet met and device, variable and value all equal the expected triple; then met at `now` with that value; otherwise nothing changes, so a met assertion stays met |
| SongcastMonitor.StateAssertion.ElapsedTime | tests/songcast_monitor.py:86-90 | An elapsed time exists exactly for a met assertion that was started and met at truthy times, and is the met time minus the start time |
| SongcastMonitor.StateAssertion.Status | tests/songcast_monitor.py:92-100 | Exactly one of pass (met), timeout (expired) or pending; a pass carries the elapsed time |
| SongcastMonitor.ExpiryMonotone | tests/songcast_monitor.py:80-84 | An expired assertion stays expired as time goes on |
| SongcastMonitor.StatusTimeline | tests/songcast_monitor.py:80-100 | An unmet assertion is pending while never started; once started it is pending until `within` after the start, then a timeout that never goes back to pending |
| SongcastMonitor.EventMatch | tests/songcast_monitor.py:317-324 | A match starts with `EVENT`, has a non-empty digit sequence number and a non-empty rest that ends the line |
| SongcastMonitor.EventMatchRoundTrip | tests/songcast_monitor.py:317-324 | `EVENT <n> <rest>` as a device writes it is matched, giving back `str(n)` and the rest |
| SongcastMonitor.EventLineMatch | tests/songcast_monitor.py:317-324 | `EVENT <digits> <rest>` is matched, giving back the digits and the rest |
| SongcastMonitor.NotAnEvent | tests/songcast_monitor.py:317-321 | A line not starting with `EVENT` is not matched, so the event changes nothing |
| SongcastMonitor.DiffAllState | tests/songcast_monitor.py:329-363 | After the diff the snapshot holds every reported value of the handled variables; all other names keep their values |
| SongcastMonitor.DiffAllChanges | tests/songcast_monitor.py:329-363 | A change is recorded for a handled variable iff the event reports it with a different value; each change carries the old value and the new one |
| SongcastMonitor.DiffAllOrder | tests/songcast_monitor.py:329-363 | The changes name exactly the differing variables, once each, in the order the blocks run |
| SongcastMonitor.DifferingAgree | tests/songcast_monitor.py:329-363 | Snapshots that agree on the handled variables have the same differing variables |
| SongcastMonitor.DiffAllSettled | tests/songcast_monitor.py:329-363 | A snapshot that already holds every reported value is left as it is, with no changes |
| SongcastMonitor.DiffsIdempotent | tests/songcast_monitor.py:329-363 | Diffing the same report twice records nothing the second time |
| SongcastMonitor.EventIdempotent | tests/songcast_monitor.py:312-363 | Processing the same EVENT line twice in a row yields no changes the second time |
| SongcastMonitor.RepeatedReport | tests/songcast_monitor.py:286-298 | A line received twice in a row leaves snapshot and changes as if received once |
| SongcastMonitor.FiredAppend | tests/songcast_monitor.py:366-382 | An assertion waits for a change in two runs of changes iff it waits for one in either run |
| SongcastMonitor.AdvanceTrans | tests/songcast_monitor.py:366-382 | Advancing over two runs of changes, one after the other, is advancing over both |
| SongcastMonitor.ProgressTrans | tests/songcast_monitor.py:366-382 | Met assertions and the raise condition carry over two consecutive runs of changes |
| SongcastMonitor.DeviceMonitor.constructor | tests/songcast_monitor.py:105-116 | Identity and assertions stored, empty snapshot |
| SongcastMonitor.DeviceMonitor.ParseInitialEvent | tests/songcast_monitor.py:210-238 | The snapshot is the subscription reply's lines scanned over the old snapshot, with the same scan as the LPEC helpers |
| SongcastMonitor.DeviceMonitor.ApplyEvent | tests/songcast_monitor.py:317-363 | Snapshot and changes are the event's effect on the old snapshot |
| SongcastMonitor.DeviceMonitor.OfferChanges | tests/songcast_monitor.py:366-382 | Each assertion keeps its progress or is newly met at `now` by a change it waits for. Without a raise, every assertion some change fires is met. A raise happens iff a newly met assertion has no elapsed time |
| SongcastMonitor.DeviceMonitor.OfferEach | tests/songcast_monitor.py:366-382 | Only unmet assertions change. A newly met one was fired by one of the changes, at `now`, with its expected value. Only changed variables and their new values are offered |
| SongcastMonitor.DeviceMonitor.ProcessEvent | tests/songcast_monitor.py:312-382 | Snapshot and changes are the event's effect, and the assertions advance by exactly those changes |
| SongcastMonitor.DeviceMonitor.HandleLine | tests/songcast_monitor.py:289-298 | A complete line is stripped; blank and non-EVENT lines change nothing; an EVENT line is processed |
| SongcastMonitor.DeviceMonitor.DrainLines | tests/songcast_monitor.py:287-298 | Lines split off plus the rest rebuild the buffer, the rest holds no newline unless a report raised, and the lines are handled in order |
| SongcastMonitor.DeviceMonitor.Listen | tests/songcast_monitor.py:267-310 | Reading stops at the first empty chunk or a raise. The complete lines and the buffer left rebuild exactly the text received, and the buffer holds no newline. The snapshot and changes are those lines replayed in order. The assertions advance by exactly those changes |
| SongcastMonitor.DeviceMonitor.ReceiveChunk | tests/songcast_monitor.py:279-298 | One more chunk appended and its complete lines handled keeps the receive invariants |
| SongcastMonitor.ReportsOfAppend | tests/songcast_monitor.py:286-298 | Reports of two runs of lines, one after the other, are the reports of the joined run |
| SongcastMonitor.SenderPart | tests/songcast_monitor.py:251-262 | A sender of at most 50 characters is shown in full, and only then. A longer one is shown as `ohz://...` or `ohSongcast://...` by its scheme, else cut to 30 characters plus `...`. Never more than 50 characters follow `Sender=` |
| SongcastMonitor.StateParts | tests/songcast_monitor.py:248-264 | Transport, Sender, Status in that order, each exactly when present |
| SongcastMonitor.FormatState | tests/songcast_monitor.py:246-265 | `No state` exactly when none of the three is present; otherwise the parts joined with `, ` |
| SongcastMonitor.FormatUri | tests/songcast_monitor.py:388-405 | An empty URI gives `None`; a URI that is neither ohz nor ohSongcast is kept up to 60 characters and becomes its first 60 plus `...` beyond |
| SongcastMonitor.FormatUriOhz | tests/songcast_monitor.py:392-397 | An `ohz://host/path` URI is shown as `ohz://host/...` |
| SongcastMonitor.FormatUriRoom | tests/songcast_monitor.py:398-402 | An `ohSongcast://udn?room=R…` URI is shown as `ohSongcast://[R]` |
| SongcastMonitor.RoomRun | tests/songcast_monitor.py:400-401 | The `room=` search captures the first room value after a head without `=` |
| SongcastMonitor.LoadEnvConfig | tests/songcast_monitor.py:443-490 | The master is the device of the last master id read, when it has one. The list is that master first, then the members' devices in listed order, ids without a device dropped |
| SongcastMonitor.MasterAliases | tests/songcast_monitor.py:471-472 | `SONGCAST_MASTER` and `SONGCAST_SENDER` set the master id alike |
| EnvFile.SettingShape | tests/songcast_monitor.py:454-465 | A setting's key and value carry no surrounding whitespace and no `#`, and the key no `=` |
| EnvFile.SettingRoundTrip | tests/songcast_monitor.py:454-465 | `key=value` written out is read back as that key and value |
| EnvFile.CommentIgnored | tests/songcast_monitor.py:458-459 | An inline `#` comment after a setting does not change it |
| EnvFile.MemberIdsRoundTrip | tests/songcast_monitor.py:474 | Clean ids joined with commas are read back as the same ids, in order |
| EnvFile.KeptClean | tests/songcast_monitor.py:474 | Ids that are non-empty and stripped all survive, in order |
| EnvFile.DeviceLine | tests/songcast_monitor.py:467-470 | `DEVICE…=<ip> <udn>` records exactly that device under its key |
| EnvFile.AbsorbDevice | tests/songcast_monitor.py:467-470 | A `DEVICE…` value with fewer than two fields changes nothing; with two or more, the first two are recorded |
| EnvFile.AbsorbMaster | tests/songcast_monitor.py:471-472 | A master-key line sets the master id |
| EnvFile.AbsorbOther | tests/songcast_monitor.py:467-474 | A line with any other key changes nothing |
| EnvFile.Known | tests/songcast_monitor.py:482 | The devices of the listed ids that have a device, in listed order; all of them when every id has one |
| EnvFile.KnownAppend | tests/songcast_monitor.py:482 | One more id adds its device at the end exactly when it has one |
| SongcastGroup.LoadEnvDevices | songcast_group.py:55-83 | The line loop gives the devices, master id and member ids that reading the lines in order gives, with the group tool's keys |
| SongcastGroup.SenderKeyIgnored | songcast_group.py:77-80 | The group tool does not know `SONGCAST_SENDER`: such a line changes nothing |
| SongcastGroup.MasterKeyRead | songcast_group.py:77-78 | A `SONGCAST_MASTER` line sets the master id |
| SongcastGroup.SenderUriRoundTrip | songcast_group.py:230-238 | The made-up URI parses to scheme `ohsongcast` with the UDN as its network location. Its query reads back as room then name, each only when given. With neither there is no query |
| SongcastGroup.IsGrouped | songcast_group.py:240-260 | No receiver is not grouped. An `ohz` sender URI is grouped, and so is an active transport state. Nothing else is grouped |
| SongcastGroup.OhzSenderGrouped | songcast_group.py:248-250 | A follower whose sender is an `ohz://host/path` URI is grouped whatever its transport state |
| SongcastGroup.SourceCount | songcast_group.py:137 | A missing or zero count means 8; any other count is kept |
| SongcastGroup.FindSongcastIndex | songcast_group.py:131-150 | The first index below the count whose source answered, is visible and looks like Songcast; none when there is no such index or no Product service |
| SongcastGroup.OhzRes | songcast_group.py:324-329 | An item's candidate URIs all start with `ohz://` |
| SongcastGroup.FirstLeaderItem | songcast_group.py:321-332 | The first item titled with the leader's room or name that offers an `ohz://` URI |
| SongcastGroup.SenderMatchOhz | songcast_group.py:319-334 | What the sender list yields is always an `ohz://` URI |
| SongcastGroup.MatchSenders | songcast_group.py:319-334 | The nested scan with its break and fallbacks gives the leader item's first `ohz://` URI, else the first of all items |
| SongcastGroup.LeaderFound | songcast_group.py:321-332 | The first leader item decides: the list says its first `ohz://` URI |
| SongcastGroup.NoLeader | songcast_group.py:333-334 | Without a leader item the list says the first `ohz://` URI of any item, none when there is none |
| SongcastGroup.ScanItem | songcast_group.py:324-329 | The child loop gives the item's last stripped title and its `ohz://` resources, in order |
| SongcastGroup.DiscoverOhz | songcast_group.py:312-339 | At most six attempts; the URI of the first attempt that found one, none iff no attempt did |
| SongcastGroup.Candidates | songcast_group.py:277-294 | Never empty. The discovered `ohz` URI comes first, else the multicast default for a known UDN. A self-reported URI comes last, twice. The made-up URI comes last only without one |
| SongcastGroup.PollCandidate | songcast_group.py:395-408 | Accepted iff one of the first eight polls shows the follower grouped, or an `ohz` candidate with an active state |
| SongcastGroup.TryCandidates | songcast_group.py:347-412 | The first accepted candidate, with none before it accepted; otherwise every candidate was tried and the URI is unchanged |
| SongcastGroup.CreateGroup | songcast_group.py:449-528 | True iff there are followers, the leader started, and every follower was initialised and is grouped at the final check; the join's own result does not count |
| SongcastGroup.PairFollowers | songcast_group.py:557-561 | One follower per IP; the UDN at the same position, else the last UDN, else none |
| SongcastGroup.ResolveFollowers | songcast_group.py:554-566 | With `--slave-ip`, those IPs paired with the `--slave-udn` UDNs as `PairFollowers` pairs them; otherwise the member ids' devices in order, unknown ids dropped |
| SongcastGroup.ResolveMaster | songcast_group.py:545-551 | The arguments when both given; missing ones filled from the `.env` master's device; none iff still missing |
| NowPlaying.LoadEnv | now_playing.py:65-83 | The line loop gives the dictionary of the lines read in order |
| NowPlaying.ReadEntry | now_playing.py:70-80 | One pass of the loop body reads the entry of one raw line |
| NowPlaying.EntryRoundTrip | now_playing.py:70-80 | `key=value` and `key="value"` are read back as that key and value |
| NowPlaying.LaterEntryWins | now_playing.py:80 | A later line for a key overwrites an earlier one |
| NowPlaying.Unquote | now_playing.py:78-79 | Removing quotes never lengthens the value |
| NowPlaying.DeviceOfPair | now_playing.py:104-112 | An IP and a UDN separated by any run of whitespace, `,` or `;` give that device |
| NowPlaying.SortedDeviceKeysUnique | now_playing.py:101-103 | There is one increasing listing of the device keys only |
| NowPlaying.LoadDevices | now_playing.py:100-112 | The devices of the `DEVICE` keys in increasing key order; none, which raises, exactly when no key gives a device |
| NowPlaying.NoDevices | now_playing.py:104-113 | The listed keys give no device iff none of their values names an IP and a UDN |
| NowPlaying.ParseDidl | now_playing.py:158-172 | No metadata gives four empty fields. Otherwise each field is the leftmost `<tag>text</tag>` found in the stripped metadata, and the channel falls back to the title; `None`, the XML fallback, exactly when none of the four is found |
| NowPlaying.NoElement | now_playing.py:162-165 | No element is found where its opening tag never occurs |
| NowPlaying.ElementAtMatch | now_playing.py:162-165 | An element `<tag>text</tag>` whose text is non-empty and holds no `<` matches where it starts, capturing the text |
| NowPlaying.ElementFound | now_playing.py:162-165 | Any such element present in the metadata is found |
| NowPlaying.TitleOnly | now_playing.py:158-172 | Metadata with only a title gives that title, also as the channel |
| NowPlaying.SongcastSourceAgrees | now_playing.py:266 | A visible source this tool takes for Songcast is one the group tool would pick too |
| NowPlaying.RadioStation | now_playing.py:256-258 | The station is the title iff type or name is `radio`, case-insensitively, else none |
| NowPlaying.SchemeOf | now_playing.py:328-333 | The parsed, lower-cased scheme of a non-empty URI that parses, none otherwise |
| NowPlaying.NotGroupedNow | now_playing.py:334-338 | Neither `ohz` nor `ohsongcast`, or no URI: not grouped, whatever the transport state |
| NowPlaying.GroupedNowIsGrouped | now_playing.py:334-338 | Grouped for this tool implies grouped for the group tool |
| NowPlaying.GroupedIsNotGroupedNow | now_playing.py:334-338 | The converse fails: playing without a sender URI |
| NowPlaying.StripSlashes | now_playing.py:346 | The result has no `/` at either end and is the input when it had none |
| NowPlaying.SenderFromQuery | now_playing.py:345-351 | `room` first, else `name`, keys case-insensitive |
| NowPlaying.InferSender | now_playing.py:341-356 | No URI or an unparsable one gives none. A query name wins. Any result is non-empty |
| NowPlaying.SenderOfBuiltUri | now_playing.py:341-351 | On a URI the group tool made, the inferred sender is the room, else the name |
| NowPlaying.DeviceLabel | now_playing.py:421-428 | The name, or `Device`, followed by ` (in standby)` exactly when standby is true |
| NowPlaying.FormatResult | now_playing.py:421-460 | Label, source (name, else type, else `Unknown source`) and parts, or `No metadata available` iff there are none |
| NowPlaying.CollectParts | now_playing.py:423-458 | The appends produce the specified parts |
| NowPlaying.AppendSongcast | now_playing.py:429-450 | The Songcast step appends the Songcast parts |
| NowPlaying.AppendReceiver | now_playing.py:438-450 | The not-grouped step appends the receiver parts |
| NowPlaying.AppendTrack | now_playing.py:451-456 | The station and track steps append their parts |
| NowPlaying.SongcastParts | now_playing.py:429-450 | Songcast parts exist iff the source is Songcast |
| NowPlaying.PartsPower | now_playing.py:424-425 | Power comes first when standby is known and is absent otherwise |
| NowPlaying.PartsSongcast | now_playing.py:429-450 | Songcast parts appear only for Songcast. A grouped receiver shows its sender, or that the sender is unknown. Otherwise the part says not grouped |
| NowPlaying.PartsTrack | now_playing.py:451-458 | A station part when there is a station. Track when title and artist are both known, Title when only the title is. The album comes last |
| NowPlaying.PartsTrackAbsent | now_playing.py:453-458 | No title gives no Track or Title part, and no album gives no Album part |
| NowPlaying.PartsEmpty | now_playing.py:459-460 | No parts iff nothing is known |
| FindLinnUdn.OctetValue | find_linn_udn.py:135 | A decimal number is an octet iff it is at most 255 |
| FindLinnUdn.DottedQuadValid | find_linn_udn.py:134-135 | Four numbers written as a dotted quad pass iff each is at most 255 |
| FindLinnUdn.ValidIpShape | find_linn_udn.py:134-135 | A passing address is four dot-free octets joined by dots |
| FindLinnUdn.AliveUdn | find_linn_udn.py:44 | A match is a hex/dash UDN ending the stripped line, which starts with `ALIVE` |
| FindLinnUdn.AliveRoundTrip | find_linn_udn.py:44-46 | `ALIVE Ds <udn>` is read back as the UDN |
| FindLinnUdn.LastAliveWins | find_linn_udn.py:42-46 | The last matching line wins; none iff no line matches |
| FindLinnUdn.LastMatchFound | find_linn_udn.py:42-46 | The line scan ends with the value of a matching line, or none iff no line matches |
| FindLinnUdn.LastMatchWins | find_linn_udn.py:42-46 | A later match replaces an earlier one |
| FindLinnUdn.ScanAlive | find_linn_udn.py:42-46 | The line loop gives the last match |
| FindLinnUdn.ReadAlive | find_linn_udn.py:32-51 | Stops at the first empty chunk or once a UDN is known; the UDN is the last match over the text so far |
| FindLinnUdn.ScanLine | find_linn_udn.py:85-95 | Non-`EVENT ` lines change nothing; an EVENT line sets a found name or room |
| FindLinnUdn.ScanLineLeftmost | find_linn_udn.py:90-93 | The name read is the capture of the leftmost match |
| FindLinnUdn.NoEventLines | find_linn_udn.py:88 | Lines without `EVENT ` change nothing |
| FindLinnUdn.ReadProduct | find_linn_udn.py:76-101 | Stops at the first empty chunk or once a name or room is found |
| FindLinnUdn.ScanProduct | find_linn_udn.py:85-97 | The line loop with its break gives the specified scan |
| FindLinnUdn.Display | find_linn_udn.py:154-161 | `room: name` when both are non-empty, else whichever is; none iff neither |
| QuerySources.ErrorInfo | query_sources.py:104-109 | Hidden, type `Error`, name `Error-` followed by the index in decimal, which reads back as the index |
| QuerySources.SourceLabel | query_sources.py:88 | `Source ` followed by the index in decimal, which reads back as the index |
| QuerySources.IndexReadBack | query_sources.py:88 | The decimal text of an index reads back as that index |
| QuerySources.FieldBySuffix | query_sources.py:85-93 | The `SystemName` branch is unreachable; each field is chosen by its tag suffix |
| QuerySources.ParseVisible | query_sources.py:93-101 | Hidden iff the trimmed, lowercased text is `false`, `0` or `no`; no text is visible |
| QuerySources.NameLastWins | query_sources.py:85-90 | The last `…Name` element decides the name, `Source <i>` when empty, `Unknown` when none |
| QuerySources.TypeLastWins | query_sources.py:91-92 | The last `…Type` element decides the type, `Unknown` when empty or none |
| QuerySources.VisibleLastWins | query_sources.py:93-101 | The last `…Visible` element decides visibility, visible when none |
| QuerySources.DetailsDefault | query_sources.py:83 | No relevant element gives `Unknown`, `Unknown`, visible |
| QuerySources.GetSourceDetails | query_sources.py:79-109 | A failure gives the error record; otherwise the element fold |
| QuerySources.ParseInt | query_sources.py:51 | A result comes from a non-blank text, and a negative one from a leading `-` |
| QuerySources.ParseIntRoundTrip | query_sources.py:51 | `int(str(i)) == i` |
| QuerySources.FirstValue | query_sources.py:49-51 | No `Value` element gives none |
| QuerySources.FirstValueIsFirst | query_sources.py:49-51 | Only the first `Value` element counts |
| QuerySources.ScanValue | query_sources.py:129-131 | The loop with its early return gives the first `Value` |
| QuerySources.GetSourceCount | query_sources.py:45-58 | None on failure, else the first `Value` |
| QuerySources.GetCurrentSource | query_sources.py:125-135 | -1 on failure or without a `Value`, else its integer |
| QuerySources.ListingMarkers | query_sources.py:175-178 | Marked current iff the index is the current one, and hidden iff not visible |
| QuerySources.Listing | query_sources.py:173-178 | One line per source, in index order |
| QuerySources.ListingMarksCurrent | query_sources.py:173-178 | Some line is marked current iff the current index is in range |
| Text.StripMeaning | now_playing.py:70 | `strip()` keeps the infix between whitespace runs; what it drops is whitespace |
| Text.StripNoop | now_playing.py:76-77 | Stripping a stripped string changes nothing |
| Text.JoinSplit | find_linn_udn.py:134 | Splitting and joining on the same separator gives the text back |
| Text.SplitJoin | find_linn_udn.py:134 | Joining separator-free pieces and splitting gives them back |
| Text.SplitWsPair | tests/songcast_monitor.py:468 | Two words and a space split back into the two words |
| Text.TerminatedIsSplit | tests/songcast_monitor.py:287-288 | Newline-terminated lines plus a tail split on newlines into those lines and the tail |
| Text.ExtractIsLeftmost | lpec_utils.py:96 | The search captures at the leftmost match, none iff there is no match anywhere |
| Text.SearchRunFirst | tests/songcast_monitor.py:393-400 | The search gives the run at the first position where the pattern matches |
| Text.SearchRunNone | now_playing.py:162-165 | The search finds nothing exactly when the pattern matches nowhere |
| Text.NatToStringValue | find_linn_udn.py:135 | Decimal digits read back give the number |
| Text.LessTotal | now_playing.py:103 | String order is total |
| Text.SortedUnique | now_playing.py:103 | A finite set has one sorted listing only |
| Text.LeastExists | now_playing.py:103 | A non-empty finite set of strings has a least element |
| Urls.UrlParseRoundTrip | now_playing.py:344 | `scheme://netloc/path?query` parses back into its parts, scheme lower-cased |
| Urls.ParseQslUrlencode | songcast_group.py:236 | Parsing the query reverses `urlencode` on plain names and values |
| Urls.UrlencodeText | songcast_group.py:236 | `urlencode` writes only escaped text, `=` and `&` |
| Urls.PlusQuote | songcast_group.py:236 | Plain text quoted and read back is unchanged |
| Urls.LoweredMeaning | now_playing.py:345 | A lower-cased key is present iff some name lower-cases to it; its value is that name's first value |
| Lpec.Reports | lpec_utils.py:91-111 | One report per line, in line order |
| Lpec.OverlayOrigin | lpec_utils.py:91-111 | Every name of the result was in the earlier state or reported by some line |
| SongcastMonitor.Differing | tests/songcast_monitor.py:329-363 | A name differs iff it is handled, reported, and its reported value is not the snapshot's |
| EnvFile.Kept | tests/songcast_monitor.py:474 | Every id kept is a stripped, non-empty piece of the comma-separated value |
| SongcastGroup.SenderUriParts | songcast_group.py:230-238 | The made-up URI parses with scheme `ohsongcast`, the UDN as network location, no path and the encoded query |
| SongcastGroup.AllOhzRes | songcast_group.py:324-334 | The fallback list of all items' resources holds only `ohz://` URIs |
| NowPlaying.Summary | now_playing.py:459-460 | The joined parts are empty iff there are no parts |
| QuerySources.LastWith | query_sources.py:85-101 | The index of the last element with the field's suffix; none iff no element has it |
| Text.Strip | now_playing.py:70 | `strip()` never lengthens a string |
| Text.Lower | now_playing.py:257 | `lower()` keeps the length and maps each character |
| Text.Split | find_linn_udn.py:134 | `split(d)` gives at least one piece, and no piece holds `d` |
| Text.SplitOnce | tests/songcast_monitor.py:463 | `split(d, 1)` on text holding `d` gives the part before its first occurrence and the rest |
| Text.SplitWs | tests/songcast_monitor.py:468 | `split()` gives words only, and no words iff the text is all whitespace |
| Text.SplitLines | lpec_utils.py:91 | `splitlines()` gives lines without line breaks, and none iff the text is empty |
| Text.Extract | lpec_utils.py:97 | A captured value holds no `"` |
| Text.SearchRun | tests/songcast_monitor.py:393-400 | A captured run is non-empty and holds no stop character |
| Text.DigitsFrom | tests/songcast_monitor.py:317 | The maximal run of digits from a position |
| Text.NatToString | find_linn_udn.py:135 | `str(n)` is a non-empty run of digits with no leading zero |
| Urls.UrlParse | now_playing.py:331 | A parsed scheme is empty or a lower-case scheme |
| Urls.QuotePlus | songcast_group.py:237 | Quoting never shortens text and writes only unreserved characters, `+` and escapes |

## Left out

- Sockets, telnet and HTTP/SOAP requests. Replies come in as text, chunks, `(tag, text)` elements or `None` for a failed call. The SOAP envelopes are not modelled.
- Threads, `start`/`stop`, the `running` flag, `asyncio` sleeps and timeouts. Time is a `nat` argument. Wall-clock deadlines become the finite sequences of polls or chunks that arrive before them.
- `openhomedevice` calls are left out: `init`, `friendly_name`, `name`, `room`, `source`, `track_info`, standby and the Receiver actions. Their results are inputs.
- `songcast_group.py`'s `wake_device`, `set_source_to_songcast`, `set_leader_to_songcast_sender`, `_get_current_source_info`, `_resolve_device_name` and `_init_dev` are left out. They are device I/O whose effect reaches the model only through `_is_grouped` and the polls.
- The SetSender/Play calls for each candidate in `_receiver_join` are left out, along with the SOAP fallback and the DIDL metadata string it builds. They are fire-and-forget; acceptance depends only on the polls.
- The network lookup of a sender's name in `query_device` is left out, and so is the name cache. The cache is a map argument.
- The `didl_lite` sender metadata fallback of `query_device` is left out, as are `html.unescape` and the XML fallback of `parse_didl`. `ParseDidl` returns `None` where the XML fallback would run.
- The `DEVICES_JSON`/`DEVICES` branch of `load_devices_from_env` is left out because it is JSON parsing.
- XML parsing (`ElementTree`) is not modelled. A reply is its sequence of elements in document order.
- Urls: `%`-escapes are not decoded by the query parser; the round trips are stated for text without them. IPv6 brackets and `;params` are handled only as far as the round trip needs.
- SongcastMonitor.EventMatch takes the regular expression's `\d` as the ASCII digits. Python's `\d` on text also matches other Unicode decimal digits, so an event numbered with those is matched by the source and not by the model.
- Urls.UrlParse does not model the `ValueError` that `urlsplit` raises for a non-ASCII network location whose NFKC normal form gains one of `/?#@:`. For such a URI the source finds no scheme and no sender, and the model parses it.
- Every reader decodes each received chunk on its own, with `decode('utf-8', errors='ignore')`. A multi-byte character split across two chunks is therefore dropped by the source. The model's chunks are already text, so it keeps that character.
- Text.Lower folds ASCII letters only, and `int()` accepts ASCII digits only: no Unicode digits and no `_` separators.
- Floating point is left out. `within_seconds` and the elapsed time are integers. The `:.2f` format of the elapsed time is modelled only by whether it raises on `None`.
- Printing, logging, `argparse`, file opening, and the missing-file and read-error branches are left out.
- `play_pin.py` is not part of this model.
- SongcastMonitor.FormatUri: for `ohz://` and `ohSongcast://` URIs its contract says nothing. The two forms are stated by `FormatUriOhz` and `FormatUriRoom` for URIs of the usual shape.
- SongcastMonitor.DeviceMonitor.Listen: a socket timeout, which only continues the loop, is not a chunk. A closed connection is an empty chunk.
- NowPlaying.InferSender: when the query names no sender, the result from the cached UDN is left unconstrained by its contract.
