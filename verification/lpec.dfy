/** The LPEC helpers shared by the monitor and the grouping tool: reading a
    Receiver state out of the lines a device sends after `SUBSCRIBE Ds/Receiver`,
    matching a polled state against an expectation, and summarising a state.
    The socket exchange itself is not modelled: a reply is the text received. */
module Lpec {
  import opened Text

  /** A Receiver state: variable name to its last reported value. */
  type State = map<string, string>

  /** The Receiver variables the tools read out of an EVENT line, in the order they are read. */
  const Variables: seq<string> := ["TransportState", "Sender", "Status", "ProtocolInfo"]

  /** `state.get(name)`. */
  function Get(state: State, name: string): Option<string> {
    if name in state then Some(state[name]) else None
  }

  /** Python truthiness of an optional state: present and not empty. */
  predicate Truthy(state: Option<State>) {
    state.Some? && state.value != map[]
  }

  /** `if m: state[name] = m.group(1)` */
  function Put(state: State, name: string, m: Option<string>): State {
    if m.Some? then state[name := m.value] else state
  }

  /** A line the parsers look at: after stripping it starts with `EVENT`. */
  predicate IsEventLine(line: string) {
    StartsWith(Strip(line), "EVENT")
  }

  /** The line is an EVENT line and reports variable `name`. */
  predicate Carries(line: string, name: string) {
    IsEventLine(line) && Extract(Strip(line), name).Some?
  }

  /** The effect of one received line on the state being gathered: an EVENT
      line sets each of the four variables it reports, in the order of `Variables`. */
  function ScanLine(state: State, line: string): State {
    if !IsEventLine(line) then state
    else
      var l := Strip(line);
      PutAll(state, Extract(l, "TransportState"), Extract(l, "Sender"), Extract(l, "Status"), Extract(l, "ProtocolInfo"))
  }

  /** The four `Put`s of one EVENT line, in the order of `Variables`. */
  function PutAll(state: State, transport: Option<string>, sender: Option<string>,
                  status: Option<string>, info: Option<string>): State
  {
    Put(Put(Put(Put(state, "TransportState", transport), "Sender", sender), "Status", status), "ProtocolInfo", info)
  }

  /** The four `Put`s on a state are the same four `Put`s on an empty state, laid over it. */
  lemma PutAllOverlays(state: State, transport: Option<string>, sender: Option<string>,
                       status: Option<string>, info: Option<string>)
    ensures PutAll(state, transport, sender, status, info) == state + PutAll(map[], transport, sender, status, info)
  {
    var s0: State := map[];
    assert state + s0 == state;
    PutOver(state, s0, "TransportState", transport);
    var s1 := Put(s0, "TransportState", transport);
    PutOver(state, s1, "Sender", sender);
    var s2 := Put(s1, "Sender", sender);
    PutOver(state, s2, "Status", status);
    var s3 := Put(s2, "Status", status);
    PutOver(state, s3, "ProtocolInfo", info);
  }

  /** One `Put` commutes with laying a state underneath. */
  lemma PutOver(state: State, base: State, name: string, m: Option<string>)
    ensures Put(state + base, name, m) == state + Put(base, name, m)
  {
  }

  /** What the text of one event reports: each recognised variable it carries, with its value. */
  function Found(text: string): State {
    PutAll(map[], Extract(text, "TransportState"), Extract(text, "Sender"), Extract(text, "Status"), Extract(text, "ProtocolInfo"))
  }

  /** An event's text reports exactly the recognised variables it carries, with the values `Extract` finds. */
  lemma FoundMeaning(text: string, name: string)
    ensures name in Found(text) <==> name in Variables && Extract(text, name).Some?
    ensures name in Found(text) ==> Some(Found(text)[name]) == Extract(text, name)
  {
  }

  /** What one line reports: the recognised variables an EVENT line carries, with their values. */
  function Reported(line: string): State {
    if IsEventLine(line) then Found(Strip(line)) else map[]
  }

  /** A line reports exactly the recognised variables it carries, with the values `Extract` finds. */
  lemma ReportedMeaning(line: string, name: string)
    ensures name in Reported(line) <==> name in Variables && Carries(line, name)
    ensures name in Reported(line) ==> Some(Reported(line)[name]) == Extract(Strip(line), name)
  {
  }

  /** Scanning a line lays its report over the state gathered so far. */
  lemma ScanLineOverlays(state: State, line: string)
    ensures ScanLine(state, line) == state + Reported(line)
  {
    if IsEventLine(line) {
      var l := Strip(line);
      PutAllOverlays(state, Extract(l, "TransportState"), Extract(l, "Sender"), Extract(l, "Status"), Extract(l, "ProtocolInfo"));
    }
  }

  /** The first `n` of `reports` laid over `state`, in order. */
  function Overlay(state: State, reports: seq<State>, n: nat): State
    requires n <= |reports|
  {
    if n == 0 then state else Overlay(state, reports, n - 1) + reports[n - 1]
  }

  /** The last report that has a name decides its value. */
  lemma {:induction false} OverlayLastWins(state: State, reports: seq<State>, n: nat, name: string, j: nat)
    requires j < n <= |reports|
    requires name in reports[j]
    requires forall l :: j < l < n ==> name !in reports[l]
    ensures Get(Overlay(state, reports, n), name) == Some(reports[j][name])
  {
    if j < n - 1 {
      OverlayLastWins(state, reports, n - 1, name, j);
    }
  }

  /** A name no report has keeps its value. */
  lemma {:induction false} OverlayKeeps(state: State, reports: seq<State>, n: nat, name: string)
    requires n <= |reports|
    requires forall l :: 0 <= l < n ==> name !in reports[l]
    ensures Get(Overlay(state, reports, n), name) == Get(state, name)
  {
    if n > 0 {
      OverlayKeeps(state, reports, n - 1, name);
    }
  }

  /** The reports of all lines, in order. */
  function Reports(lines: seq<string>): (r: seq<State>)
    ensures |r| == |lines| && forall i :: 0 <= i < |lines| ==> r[i] == Reported(lines[i])
  {
    seq(|lines|, i requires 0 <= i < |lines| => Reported(lines[i]))
  }

  /** The state gathered from the first `n` of `lines`, in order, on top of `state`. */
  function ScanLines(state: State, lines: seq<string>, n: nat): State
    requires n <= |lines|
  {
    Overlay(state, Reports(lines), n)
  }

  /** A recognised variable ends up with the value of the last line that reports it. */
  lemma LastLineWins(state: State, lines: seq<string>, n: nat, name: string, j: nat)
    requires j < n <= |lines|
    requires name in Variables && Carries(lines[j], name)
    requires forall l :: j < l < n ==> !Carries(lines[l], name)
    ensures Get(ScanLines(state, lines, n), name) == Extract(Strip(lines[j]), name)
  {
    var reports := Reports(lines);
    ReportedMeaning(lines[j], name);
    forall l | j < l < n ensures name !in reports[l] {
      ReportedMeaning(lines[l], name);
    }
    OverlayLastWins(state, reports, n, name, j);
  }

  /** A variable no line reports, and any other name, keeps its value from before. */
  lemma UnreportedKept(state: State, lines: seq<string>, n: nat, name: string)
    requires n <= |lines|
    requires name !in Variables || forall l :: 0 <= l < n ==> !Carries(lines[l], name)
    ensures Get(ScanLines(state, lines, n), name) == Get(state, name)
  {
    var reports := Reports(lines);
    forall l | 0 <= l < n ensures name !in reports[l] {
      ReportedMeaning(lines[l], name);
    }
    OverlayKeeps(state, reports, n, name);
  }

  /** Every name in an overlay comes from the base state or from one of the reports. */
  lemma {:induction false} OverlayOrigin(state: State, reports: seq<State>, n: nat, name: string)
    requires n <= |reports|
    requires name in Overlay(state, reports, n)
    ensures name in state || exists l :: 0 <= l < n && name in reports[l]
  {
    if n > 0 && name !in reports[n - 1] {
      OverlayOrigin(state, reports, n - 1, name);
    }
  }

  /** Parsing starts from nothing, so every name in a parsed state is one of the four variables. */
  lemma OnlyVariables(lines: seq<string>)
    ensures forall k :: k in ScanLines(map[], lines, |lines|) ==> k in Variables
  {
    forall k | k in ScanLines(map[], lines, |lines|) ensures k in Variables {
      OverlayOrigin(map[], Reports(lines), |lines|, k);
      var l :| 0 <= l < |lines| && k in Reports(lines)[l];
      ReportedMeaning(lines[l], k);
    }
  }

  /** The parsing half of `query_receiver_state`: the lines of the reply are
      scanned in order, and a reply that reports none of the variables gives `None`. */
  method QueryReceiverState(reply: string) returns (r: Option<State>)
    ensures var lines := SplitLines(reply);
            r == if ScanLines(map[], lines, |lines|) == map[] then None else Some(ScanLines(map[], lines, |lines|))
    ensures r.Some? ==> forall k :: k in r.value ==> k in Variables
  {
    var lines := SplitLines(reply);
    var state: State := map[];
    for i := 0 to |lines|
      invariant state == ScanLines(map[], lines, i)
    {
      ScanLineOverlays(state, lines[i]);
      assert Reports(lines)[i] == Reported(lines[i]);
      state := ScanLine(state, lines[i]);
    }
    OnlyVariables(lines);
    r := if state == map[] then None else Some(state);
  }

  /** Every expected variable holds exactly its expected value. */
  predicate Agrees(state: State, expected: map<string, string>) {
    forall k :: k in expected ==> Get(state, k) == Some(expected[k])
  }

  /** The test `wait_for_state` applies to one poll: a non-empty state that agrees with the expectation. */
  predicate Matches(state: Option<State>, expected: map<string, string>) {
    Truthy(state) && Agrees(state.value, expected)
  }

  /** An empty expectation is met by any state that is there at all. */
  lemma EmptyExpectation(state: Option<State>)
    ensures Matches(state, map[]) <==> Truthy(state)
  {
  }

  /** The inner loop of `wait_for_state`: compare expected values one by one,
      stopping at the first that differs. */
  method AllMatch(state: State, expected: map<string, string>) returns (ok: bool)
    ensures ok <==> Agrees(state, expected)
  {
    ok := true;
    var todo := expected.Keys;
    while todo != {}
      invariant todo <= expected.Keys
      invariant ok <==> forall k :: k in expected && k !in todo ==> Get(state, k) == Some(expected[k])
      decreases todo
    {
      var k :| k in todo;
      if Get(state, k) != Some(expected[k]) {
        ok := false;
        return;
      }
      todo := todo - {k};
    }
  }

  /** `wait_for_state` over the states polled before the deadline: success with
      the first matching poll, otherwise failure with the last poll (`None` when
      there was none). */
  method WaitForState(polls: seq<Option<State>>, expected: map<string, string>) returns (ok: bool, last: Option<State>)
    ensures ok <==> exists i :: 0 <= i < |polls| && Matches(polls[i], expected)
    ensures ok ==> exists i :: 0 <= i < |polls| && Matches(polls[i], expected) && last == polls[i]
                      && forall j :: 0 <= j < i ==> !Matches(polls[j], expected)
    ensures !ok ==> last == if polls == [] then None else polls[|polls| - 1]
  {
    last := None;
    for i := 0 to |polls|
      invariant forall j :: 0 <= j < i ==> !Matches(polls[j], expected)
      invariant last == if i == 0 then None else polls[i - 1]
    {
      var state := polls[i];
      last := state;
      if Truthy(state) {
        var all := AllMatch(state.value, expected);
        if all {
          return true, state;
        }
      }
    }
    ok := false;
  }

  /** `check_transport_playing`: the transport state, lowercased, is playing or buffering. */
  function CheckTransportPlaying(state: Option<State>): (r: bool)
    ensures r <==> Truthy(state) && "TransportState" in state.value
                   && Lower(state.value["TransportState"]) in {"playing", "buffering"}
  {
    Truthy(state) && Lower(if "TransportState" in state.value then state.value["TransportState"] else "") in {"playing", "buffering"}
  }

  /** `check_sender_uri`: whether the Sender starts with `<scheme>://`, case
      sensitively, and the Sender seen (`""` when the state has none). */
  function CheckSenderUri(state: Option<State>, scheme: string): (r: (bool, Option<string>))
    ensures !Truthy(state) ==> r == (false, None)
    ensures Truthy(state) ==> r.1 == Some(if "Sender" in state.value then state.value["Sender"] else "")
    ensures r.0 <==> r.1.Some? && StartsWith(r.1.value, scheme + "://")
  {
    if !Truthy(state) then (false, None)
    else
      var sender := if "Sender" in state.value then state.value["Sender"] else "";
      (StartsWith(sender, scheme + "://"), Some(sender))
  }

  /** How `format_state_summary` shows a Sender. */
  function SenderSummary(sender: string): (r: string)
    ensures StartsWith(r, "Sender=")
    ensures r == "Sender=(empty)" <==> sender == ""
    ensures StartsWith(sender, "ohz://") ==> r == "Sender=ohz://..."
    ensures !StartsWith(sender, "ohz://") && StartsWith(sender, "ohSongcast://") ==> r == "Sender=ohSongcast://..."
    ensures sender != "" && !StartsWith(sender, "ohz://") && !StartsWith(sender, "ohSongcast://") ==>
              r == "Sender=" + Take(sender, 30) + "..."
  {
    if StartsWith(sender, "ohz://") then "Sender=ohz://..."
    else if StartsWith(sender, "ohSongcast://") then "Sender=ohSongcast://..."
    else if sender != "" then
      var r := "Sender=" + Take(sender, 30) + "...";
      assert r[|r| - 1] == '.';
      r
    else "Sender=(empty)"
  }

  /** The parts `format_state_summary` lists: Transport, Sender, Status, each only when present. */
  function SummaryParts(state: State): (parts: seq<string>)
    ensures |parts| == (if "TransportState" in state then 1 else 0) + (if "Sender" in state then 1 else 0)
                       + (if "Status" in state then 1 else 0)
    ensures parts == [] <==> "TransportState" !in state && "Sender" !in state && "Status" !in state
    ensures "TransportState" in state ==> parts[0] == "Transport=" + state["TransportState"]
    ensures "Sender" in state ==> parts[if "TransportState" in state then 1 else 0] == SenderSummary(state["Sender"])
    ensures "Status" in state ==> parts[|parts| - 1] == "Status=" + state["Status"]
  {
    (if "TransportState" in state then ["Transport=" + state["TransportState"]] else [])
    + (if "Sender" in state then [SenderSummary(state["Sender"])] else [])
    + (if "Status" in state then ["Status=" + state["Status"]] else [])
  }

  /** `format_state_summary`. */
  function FormatStateSummary(state: Option<State>): (r: string)
    ensures r == "No state available" <==> !Truthy(state)
    ensures Truthy(state) && SummaryParts(state.value) == [] ==> r == "No data"
    ensures Truthy(state) && SummaryParts(state.value) != [] ==> r == JoinWith(SummaryParts(state.value), ", ")
  {
    if !Truthy(state) then "No state available"
    else if SummaryParts(state.value) == [] then "No data"
    else
      var parts := SummaryParts(state.value);
      JoinWithStarts(parts, ", ");
      var r := JoinWith(parts, ", ");
      assert r[0] == parts[0][0];
      r
  }
}
