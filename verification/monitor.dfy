/** The Songcast monitor of `tests/songcast_monitor.py`: it follows the
    `Ds/Receiver` events of each configured device, keeps a snapshot of the
    four receiver variables per device, reports every change, and checks the
    changes against expected ones ("assertions") that must be met within a
    deadline.  Sockets and threads are left out: received text comes in as a
    sequence of chunks and time as explicit `nat` arguments. */
module SongcastMonitor {
  import opened Text
  import opened Lpec
  import EnvFile

  /** What `StateAssertion.status_string` reports. */
  datatype Verdict =
    | Pass(elapsed: int)
    | Timeout(within: nat)
    | Pending
      /** Met, but without an elapsed time: formatting `None` with `:.2f` raises `TypeError`. */
    | Unformattable

  /** What `start` and `check` change in an assertion: the start time, whether
      it is met, when, and the value that met it. */
  datatype Progress = Progress(startTime: Option<nat>, met: bool, metTime: Option<nat>, actualValue: Option<string>)

  /** `elapsed_time` on those fields: defined only when met, started and met at
      a truthy time (Python treats a time of 0 as missing). */
  function ElapsedOf(p: Progress): Option<int> {
    if p.met && p.startTime.Some? && p.startTime.value != 0 && p.metTime.Some? && p.metTime.value != 0
    then Some(p.metTime.value - p.startTime.value)
    else None
  }

  /** An expected change: device `deviceId` reports `variable` = `expectedValue`
      within `within` time units of `Start`. */
  class StateAssertion {
    const deviceId: string
    const variable: string
    const expectedValue: string
    const within: nat
    var startTime: Option<nat>
    var met: bool
    var metTime: Option<nat>
    var actualValue: Option<string>

    constructor(deviceId: string, variable: string, expectedValue: string, within: nat)
      ensures this.deviceId == deviceId && this.variable == variable
      ensures this.expectedValue == expectedValue && this.within == within
      ensures startTime == None && !met && metTime == None && actualValue == None
    {
      this.deviceId := deviceId;
      this.variable := variable;
      this.expectedValue := expectedValue;
      this.within := within;
      startTime := None;
      met := false;
      metTime := None;
      actualValue := None;
    }

    /** The change of `name` to `value` on `device` is the one this assertion waits for. */
    predicate Expects(device: string, name: string, value: string) {
      device == deviceId && name == variable && value == expectedValue
    }

    /** Starts the timer. */
    method Start(now: nat)
      modifies this
      ensures startTime == Some(now)
      ensures met == old(met) && metTime == old(metTime) && actualValue == old(actualValue)
    {
      startTime := Some(now);
    }

    /** Offers a change: the first matching one meets the assertion and is the
        only one answered `true`; a met assertion never changes again. */
    method Check(device: string, name: string, value: string, now: nat) returns (r: bool)
      modifies this
      ensures r <==> !old(met) && Expects(device, name, value)
      ensures r ==> met && metTime == Some(now) && actualValue == Some(value) && startTime == old(startTime)
      ensures !r ==> unchanged(this)
    {
      if met {
        return false;
      }
      if device == deviceId && name == variable && value == expectedValue {
        met := true;
        metTime := Some(now);
        actualValue := Some(value);
        return true;
      }
      return false;
    }

    /** The fields `start` and `check` update, as a value. */
    function Snapshot(): Progress
      reads this
    {
      Progress(startTime, met, metTime, actualValue)
    }

    /** The timer has been started, in Python's sense of a truthy `start_time`
        (a start at time 0 counts as not started). */
    predicate Started()
      reads this
    {
      startTime.Some? && startTime.value != 0
    }

    /** The deadline has passed without the assertion being met. */
    predicate IsExpired(now: nat)
      reads this
    {
      if !Started() || met then false else now - startTime.value > within
    }

    /** How long the assertion took to be met, when it was met after a start. */
    function ElapsedTime(): (r: Option<int>)
      reads this
      ensures r.Some? <==> met && Started() && metTime.Some? && metTime.value != 0
      ensures r.Some? ==> r.value == metTime.value - startTime.value
    {
      ElapsedOf(Snapshot())
    }

    /** The reported status at time `now`. */
    function Status(now: nat): (v: Verdict)
      reads this
      ensures v.Pass? || v.Unformattable? <==> met
      ensures v.Timeout? <==> IsExpired(now)
      ensures v.Pending? <==> !met && !IsExpired(now)
      ensures v.Pass? ==> Some(v.elapsed) == ElapsedTime()
    {
      if met then (match ElapsedTime() case Some(e) => Pass(e) case None => Unformattable)
      else if IsExpired(now) then Timeout(within)
      else Pending
    }
  }

  /** Once expired, an assertion that is not met stays expired as time goes on. */
  lemma ExpiryMonotone(a: StateAssertion, now: nat, later: nat)
    requires now <= later && a.IsExpired(now)
    ensures a.IsExpired(later)
  {
  }

  /** The status of an assertion that is not met: pending while never started;
      once started, pending up to `within` after the start and a timeout from
      then on, never pending again. */
  lemma StatusTimeline(a: StateAssertion, now: nat, later: nat)
    requires !a.met && now <= later
    ensures !a.Started() ==> a.Status(now) == Pending
    ensures a.Started() ==> (a.Status(now) == Pending <==> now <= a.startTime.value + a.within)
    ensures a.Started() ==> (a.Status(now) == Timeout(a.within) <==> now > a.startTime.value + a.within)
    ensures a.Status(now).Timeout? ==> a.Status(later) == a.Status(now)
  {
  }

  /** The head of an event line: the sequence number and the rest of the line. */
  datatype EventHead = EventHead(seqNo: string, rest: string)

  /** `re.match(r'^EVENT\s+(\d+)\s+(.+)$', line)` on a line without a newline
      (`\d` taken as ASCII digits).  When the text after the number is all
      whitespace, the regex gives back one whitespace character to `(.+)`. */
  function EventMatch(line: string): (r: Option<EventHead>)
    requires '\n' !in line
    ensures r.Some? ==> StartsWith(line, "EVENT") && r.value.seqNo != [] && AllDigits(r.value.seqNo)
    ensures r.Some? ==> r.value.rest != [] && EndsWith(line, r.value.rest)
  {
    if !StartsWith(line, "EVENT") then None
    else
      var a := SpacesFrom(line, 5);
      var d := DigitsFrom(line, 5 + a);
      var p := 5 + a + d;
      var b := SpacesFrom(line, p);
      if a == 0 || d == 0 || b == 0 then None
      else if p + b < |line| then Some(EventHead(line[5 + a..p], line[p + b..]))
      else if b >= 2 then Some(EventHead(line[5 + a..p], line[|line| - 1..]))
      else None
  }

  /** An event line as the device writes it, `EVENT <seq> <rest>`, is matched
      with its sequence number and its rest. */
  lemma EventMatchRoundTrip(n: nat, rest: string)
    requires rest != [] && !IsSpace(rest[0]) && '\n' !in rest
    ensures '\n' !in "EVENT " + NatToString(n) + " " + rest
    ensures EventMatch("EVENT " + NatToString(n) + " " + rest) == Some(EventHead(NatToString(n), rest))
  {
    EventLineMatch(NatToString(n), rest);
  }

  /** `EVENT <digits> <rest>` splits back into its digits and its rest. */
  lemma EventLineMatch(digits: string, rest: string)
    requires digits != [] && AllDigits(digits)
    requires rest != [] && !IsSpace(rest[0]) && '\n' !in rest
    ensures '\n' !in "EVENT " + digits + " " + rest
    ensures EventMatch("EVENT " + digits + " " + rest) == Some(EventHead(digits, rest))
  {
    var line := "EVENT " + digits + " " + rest;
    assert StartsWith(line, "EVENT") by {
      assert line[..5] == "EVENT";
    }
    assert SpacesFrom(line, 5) == 1 by {
      assert line[5] == ' ' && line[6] == digits[0];
    }
    assert line[6..6 + |digits|] == digits;
    assert DigitsFrom(line, 6) == |digits| by {
      assert line[6 + |digits|] == ' ';
      DigitsRun(line, 6, digits);
    }
    assert SpacesFrom(line, 6 + |digits|) == 1 by {
      assert line[7 + |digits|] == rest[0];
    }
    assert line[7 + |digits|..] == rest;
  }

  /** A run of digits followed by a non-digit is counted in full. */
  lemma {:induction false} DigitsRun(line: string, i: nat, digits: string)
    requires i + |digits| < |line| && line[i..i + |digits|] == digits
    requires AllDigits(digits) && !IsDigit(line[i + |digits|])
    ensures DigitsFrom(line, i) == |digits|
    decreases |digits|
  {
    if digits != [] {
      assert line[i + 1..i + |digits|] == digits[1..];
      DigitsRun(line, i + 1, digits[1..]);
    }
  }

  /** A line that does not start with `EVENT` is never matched. */
  lemma NotAnEvent(line: string)
    requires '\n' !in line && !StartsWith(line, "EVENT")
    ensures EventMatch(line).None?
  {
  }

  /** One recorded change of a variable: its value before (none if never seen) and after. */
  datatype Change = Change(name: string, before: Option<string>, after: string)

  /** One block of `_process_event`: if the event reports `name` with a value
      other than the snapshot's, the snapshot takes the new value and the
      change is recorded. */
  function Diff(state: State, found: State, name: string): (State, seq<Change>) {
    if name in found && Get(state, name) != Some(found[name]) then
      (state[name := found[name]], [Change(name, Get(state, name), found[name])])
    else (state, [])
  }

  /** The blocks for `names`, one after the other; `_process_event` runs them for `Variables`. */
  function DiffAll(state: State, found: State, names: seq<string>): (State, seq<Change>)
    decreases |names|
  {
    if names == [] then (state, [])
    else
      var d := Diff(state, found, names[0]);
      var rest := DiffAll(d.0, found, names[1..]);
      (rest.0, d.1 + rest.1)
  }

  predicate Distinct(names: seq<string>) {
    forall i, j :: 0 <= i < j < |names| ==> names[i] != names[j]
  }

  /** The names among `names` that the event reports with a value other than
      the snapshot's, in the order of `names`. */
  function Differing(state: State, found: State, names: seq<string>): (r: seq<string>)
    ensures forall k :: k in r <==> k in names && k in found && Get(state, k) != Some(found[k])
    decreases |names|
  {
    if names == [] then []
    else
      var n := names[0];
      (if n in found && Get(state, n) != Some(found[n]) then [n] else []) + Differing(state, found, names[1..])
  }

  /** The names of a run of changes, in order. */
  function ChangeNames(cs: seq<Change>): (r: seq<string>)
    ensures |r| == |cs| && forall k :: 0 <= k < |cs| ==> r[k] == cs[k].name
  {
    seq(|cs|, k requires 0 <= k < |cs| => cs[k].name)
  }

  /** After the diff the snapshot holds every reported value of the handled
      variables and is otherwise as it was. */
  lemma {:induction false} DiffAllState(state: State, found: State, names: seq<string>)
    ensures forall k :: Get(DiffAll(state, found, names).0, k)
                        == if k in names && k in found then Some(found[k]) else Get(state, k)
    decreases |names|
  {
    if names != [] {
      var d := Diff(state, found, names[0]);
      DiffAllState(d.0, found, names[1..]);
      forall k ensures Get(d.0, k) == if k == names[0] && k in found then Some(found[k]) else Get(state, k) {
      }
    }
  }

  /** A change is recorded for a handled variable exactly when the event
      reports it with a value other than the snapshot's, and it carries the old
      and the new value. */
  lemma {:induction false} DiffAllChanges(state: State, found: State, names: seq<string>)
    requires Distinct(names)
    ensures forall c :: c in DiffAll(state, found, names).1 ==>
              c.name in names && c.name in found && c.before == Get(state, c.name)
              && c.after == found[c.name] && c.before != Some(c.after)
    ensures forall k :: k in names && k in found && Get(state, k) != Some(found[k]) ==>
              exists c :: c in DiffAll(state, found, names).1 && c.name == k
    decreases |names|
  {
    if names != [] {
      var d := Diff(state, found, names[0]);
      var tail := names[1..];
      assert Distinct(tail);
      DiffAllChanges(d.0, found, tail);
      var rest := DiffAll(d.0, found, tail);
      assert names[0] !in tail;
      forall c | c in rest.1 ensures c.before == Get(state, c.name) && c.name in names {
        assert c.name != names[0];
      }
    }
  }

  /** The changes name exactly the handled variables whose reported value
      differs from the snapshot's, in the order of `names`. */
  lemma {:induction false} DiffAllOrder(state: State, found: State, names: seq<string>)
    requires Distinct(names)
    ensures ChangeNames(DiffAll(state, found, names).1) == Differing(state, found, names)
    decreases |names|
  {
    if names != [] {
      var d := Diff(state, found, names[0]);
      var tail := names[1..];
      assert Distinct(tail);
      var rs := DiffAll(d.0, found, tail).1;
      assert DiffAll(state, found, names).1 == d.1 + rs;
      DiffAllOrder(d.0, found, tail);
      assert Differing(d.0, found, tail) == Differing(state, found, tail) by {
        assert names[0] !in tail;
        DifferingAgree(d.0, state, found, tail);
      }
      ChangeNamesAppend(d.1, rs);
      var n := names[0];
      assert ChangeNames(d.1) == if n in found && Get(state, n) != Some(found[n]) then [n] else [];
    }
  }

  lemma ChangeNamesAppend(a: seq<Change>, b: seq<Change>)
    ensures ChangeNames(a + b) == ChangeNames(a) + ChangeNames(b)
  {
  }

  /** Snapshots that agree on `names` have the same differing names. */
  lemma {:induction false} DifferingAgree(s1: State, s2: State, found: State, names: seq<string>)
    requires forall k :: k in names ==> Get(s1, k) == Get(s2, k)
    ensures Differing(s1, found, names) == Differing(s2, found, names)
    decreases |names|
  {
    if names != [] {
      assert names[0] in names;
      DifferingAgree(s1, s2, found, names[1..]);
    }
  }

  /** When the snapshot already holds every reported value, the diff changes nothing. */
  lemma {:induction false} DiffAllSettled(state: State, found: State, names: seq<string>)
    requires forall k :: k in names && k in found ==> Get(state, k) == Some(found[k])
    ensures DiffAll(state, found, names) == (state, [])
    decreases |names|
  {
    if names != [] {
      assert Diff(state, found, names[0]) == (state, []);
      DiffAllSettled(state, found, names[1..]);
      assert DiffAll(state, found, names).1 == [] + [];
    }
  }

  /** The four blocks of `_process_event`, in order, over what the event reports. */
  function Diffs(state: State, found: State): (State, seq<Change>) {
    DiffAll(state, found, Variables)
  }

  /** Diffing the same report a second time changes nothing and records nothing. */
  lemma DiffsIdempotent(state: State, found: State)
    ensures Diffs(Diffs(state, found).0, found) == (Diffs(state, found).0, [])
  {
    DiffAllState(state, found, Variables);
    DiffAllSettled(Diffs(state, found).0, found, Variables);
  }

  /** The effect of one stripped EVENT line on the snapshot: the new snapshot and
      the changes, or nothing when the line does not parse. */
  function EventEffect(state: State, line: string): (State, seq<Change>)
    requires '\n' !in line
  {
    match EventMatch(line)
    case None => (state, [])
    case Some(head) => Diffs(state, Found(head.rest))
  }

  /** Processing the same EVENT line twice in a row yields no changes the second time. */
  lemma EventIdempotent(state: State, line: string)
    requires '\n' !in line
    ensures EventEffect(EventEffect(state, line).0, line) == (EventEffect(state, line).0, [])
  {
    if EventMatch(line).Some? {
      DiffsIdempotent(state, Found(EventMatch(line).value.rest));
    }
  }

  /** The assertion waits for one of `changes` reported by `device`. */
  predicate Fired(a: StateAssertion, device: string, changes: seq<Change>) {
    exists c :: c in changes && a.Expects(device, c.name, c.after)
  }

  /** An assertion waits for a change in a run of changes exactly when it
      waits for one in the first part or in the second. */
  lemma FiredAppend(a: StateAssertion, device: string, c1: seq<Change>, c2: seq<Change>)
    ensures Fired(a, device, c1 + c2) <==> Fired(a, device, c1) || Fired(a, device, c2)
  {
    if Fired(a, device, c1 + c2) {
      var c :| c in c1 + c2 && a.Expects(device, c.name, c.after);
      assert c in c1 || c in c2;
    }
    if Fired(a, device, c1) {
      var c :| c in c1 && a.Expects(device, c.name, c.after);
      assert c in c1 + c2;
    }
    if Fired(a, device, c2) {
      var c :| c in c2 && a.Expects(device, c.name, c.after);
      assert c in c1 + c2;
    }
  }

  /** The progress of each of `list`, in order. */
  ghost function Snapshots(list: seq<StateAssertion>): (ps: seq<Progress>)
    reads list
    ensures |ps| == |list|
  {
    seq(|list|, i requires 0 <= i < |list| reads list => list[i].Snapshot())
  }

  /** From `p` to `q` the assertion `a` either kept its progress or, not met
      before, was met by one of `changes` on `device`: the change carried the
      expected value, which is recorded, and the start time was kept. */
  predicate Advances(a: StateAssertion, p: Progress, q: Progress, device: string, changes: seq<Change>) {
    q == p
    || (!p.met && q.met && q.startTime == p.startTime && q.actualValue == Some(a.expectedValue)
        && Fired(a, device, changes))
  }

  /** `Advances` for every assertion of `list`. */
  predicate AllAdvance(list: seq<StateAssertion>, ps: seq<Progress>, qs: seq<Progress>, device: string, changes: seq<Change>) {
    |ps| == |list| && |qs| == |list|
    && forall i :: 0 <= i < |list| ==> Advances(list[i], ps[i], qs[i], device, changes)
  }

  /** Every assertion met between `ps` and `qs` was met at time `now`. */
  predicate MetAt(ps: seq<Progress>, qs: seq<Progress>, now: nat) {
    |qs| == |ps| && forall i :: 0 <= i < |ps| && !ps[i].met && qs[i].met ==> qs[i].metTime == Some(now)
  }

  /** Every assertion of `list` that waits for one of `changes` is met in `qs`. */
  predicate FiredMet(list: seq<StateAssertion>, qs: seq<Progress>, device: string, changes: seq<Change>) {
    |qs| == |list| && forall i :: 0 <= i < |list| && Fired(list[i], device, changes) ==> qs[i].met
  }

  /** Some assertion met between `ps` and `qs` has no elapsed time, so that
      printing it with `:.2f` raises. */
  predicate RaisesOnPrint(ps: seq<Progress>, qs: seq<Progress>) {
    |qs| == |ps| && exists i :: 0 <= i < |ps| && !ps[i].met && qs[i].met && ElapsedOf(qs[i]).None?
  }

  /** With no changes nothing advances but stays as it is. */
  lemma AdvanceRefl(list: seq<StateAssertion>, ps: seq<Progress>, device: string, now: nat)
    requires |ps| == |list|
    ensures AllAdvance(list, ps, ps, device, []) && MetAt(ps, ps, now) && !RaisesOnPrint(ps, ps)
    ensures FiredMet(list, ps, device, [])
  {
  }

  /** Advancing by two runs of changes, one after the other, advances by both. */
  lemma AdvanceTrans(list: seq<StateAssertion>, p0: seq<Progress>, p1: seq<Progress>, p2: seq<Progress>,
                     device: string, c1: seq<Change>, c2: seq<Change>)
    requires AllAdvance(list, p0, p1, device, c1) && AllAdvance(list, p1, p2, device, c2)
    ensures AllAdvance(list, p0, p2, device, c1 + c2)
  {
    forall i | 0 <= i < |list|
      ensures Advances(list[i], p0[i], p2[i], device, c1 + c2)
    {
      FiredAppend(list[i], device, c1, c2);
      assert Advances(list[i], p0[i], p1[i], device, c1);
      assert Advances(list[i], p1[i], p2[i], device, c2);
    }
  }

  /** Met times, fired assertions and the raise condition carry over two runs. */
  lemma ProgressTrans(list: seq<StateAssertion>, p0: seq<Progress>, p1: seq<Progress>, p2: seq<Progress>,
                      device: string, c1: seq<Change>, c2: seq<Change>)
    requires AllAdvance(list, p0, p1, device, c1) && AllAdvance(list, p1, p2, device, c2)
    ensures FiredMet(list, p1, device, c1) && FiredMet(list, p2, device, c2) ==> FiredMet(list, p2, device, c1 + c2)
    ensures !RaisesOnPrint(p0, p1) ==> (RaisesOnPrint(p0, p2) <==> RaisesOnPrint(p1, p2))
  {
    forall i | 0 <= i < |list|
      ensures Fired(list[i], device, c1 + c2) <==> Fired(list[i], device, c1) || Fired(list[i], device, c2)
    {
      FiredAppend(list[i], device, c1, c2);
    }
    if !RaisesOnPrint(p0, p1) {
      if RaisesOnPrint(p0, p2) {
        var i :| 0 <= i < |p0| && !p0[i].met && p2[i].met && ElapsedOf(p2[i]).None?;
        assert Advances(list[i], p0[i], p1[i], device, c1);
        assert Advances(list[i], p1[i], p2[i], device, c2);
      }
      if RaisesOnPrint(p1, p2) {
        var i :| 0 <= i < |p1| && !p1[i].met && p2[i].met && ElapsedOf(p2[i]).None?;
        assert Advances(list[i], p0[i], p1[i], device, c1);
      }
    }
  }

  /** Text that arrived on the connection, with its arrival time; an empty text
      means the device closed the connection. */
  datatype Received = Received(text: string, at: nat)

  /** The text of the first `n` chunks, put together. */
  function Arrived(chunks: seq<Received>, n: nat): string
    requires n <= |chunks|
  {
    if n == 0 then "" else Arrived(chunks, n - 1) + chunks[n - 1].text
  }

  /** What one complete received line reports: for a line that, stripped,
      starts with `EVENT` and parses, the recognised variables of its rest;
      nothing for any other line. */
  function LineReport(line: string): Option<State>
    requires '\n' !in line
  {
    var l := Strip(line);
    StripKeeps(line, '\n');
    if !StartsWith(l, "EVENT") then None
    else
      match EventMatch(l)
      case None => None
      case Some(head) => Some(Found(head.rest))
  }

  /** `reports` are the reports of the complete `lines`, one per line, in order. */
  predicate ReportsOf(lines: seq<string>, reports: seq<Option<State>>) {
    |reports| == |lines| && (forall k :: 0 <= k < |lines| ==> '\n' !in lines[k])
    && forall k {:trigger LineReport(lines[k])} :: 0 <= k < |lines| ==> reports[k] == LineReport(lines[k])
  }

  /** The reports of two runs of lines, one after the other. */
  lemma ReportsOfAppend(lines: seq<string>, reports: seq<Option<State>>,
                        more: seq<string>, moreReports: seq<Option<State>>)
    requires ReportsOf(lines, reports) && ReportsOf(more, moreReports)
    ensures ReportsOf(lines + more, reports + moreReports)
  {
    var all := lines + more;
    forall k | 0 <= k < |all|
      ensures '\n' !in all[k]
    {
      if k < |lines| { assert all[k] == lines[k]; } else { assert all[k] == more[k - |lines|]; }
    }
    forall k | 0 <= k < |all|
      ensures (reports + moreReports)[k] == LineReport(all[k])
    {
      if k < |lines| {
        assert all[k] == lines[k];
        assert reports[k] == LineReport(lines[k]);
      } else {
        assert all[k] == more[k - |lines|];
        assert moreReports[k - |lines|] == LineReport(more[k - |lines|]);
      }
    }
  }

  /** The effect of one line's report on the snapshot: the new snapshot and the changes. */
  function Step(state: State, report: Option<State>): (State, seq<Change>) {
    match report
    case None => (state, [])
    case Some(found) => Diffs(state, found)
  }

  /** The snapshot and the changes after `reports`, in order, starting from `state`. */
  function Replay(state: State, reports: seq<Option<State>>): (State, seq<Change>) {
    if reports == [] then (state, [])
    else
      var r := Replay(state, reports[..|reports| - 1]);
      var d := Step(r.0, reports[|reports| - 1]);
      (d.0, r.1 + d.1)
  }

  /** Replaying one more report. */
  lemma ReplayMore(state: State, reports: seq<Option<State>>, report: Option<State>)
    ensures var r := Replay(state, reports);
            var d := Step(r.0, report);
            Replay(state, reports + [report]) == (d.0, r.1 + d.1)
  {
    assert (reports + [report])[..|reports|] == reports;
  }

  /** Splitting a line off the buffer keeps the text received so far. */
  lemma SplitOff(lines: seq<string>, buffer: string, line: string, rest: string)
    requires buffer == line + "\n" + rest
    ensures Terminated(lines + [line]) + rest == Terminated(lines) + buffer
  {
    assert (lines + [line])[..|lines|] == lines;
    assert Terminated(lines + [line]) == Terminated(lines) + line + "\n";
  }

  /** Appending a chunk to the buffer and splitting lines off it keeps the
      text received so far. */
  lemma TakeChunk(chunks: seq<Received>, n: nat, lines: seq<string>, buffer: string, more: seq<string>, rest: string)
    requires n < |chunks| && Terminated(lines) + buffer == Arrived(chunks, n)
    requires Terminated(lines + more) + rest == Terminated(lines) + (buffer + chunks[n].text)
    ensures Terminated(lines + more) + rest == Arrived(chunks, n + 1)
  {
    Associative(Terminated(lines), buffer, chunks[n].text);
  }

  /** A report received twice in a row records nothing the second time. */
  lemma RepeatedReport(state: State, reports: seq<Option<State>>, report: Option<State>)
    ensures Replay(state, reports + [report, report]) == Replay(state, reports + [report])
  {
    var once := reports + [report];
    var twice := reports + [report, report];
    assert twice[..|twice| - 1] == once;
    assert once[..|once| - 1] == reports;
    var r := Replay(state, reports);
    var d := Step(r.0, report);
    if report.Some? {
      DiffsIdempotent(r.0, report.value);
    }
    assert Step(d.0, report) == (d.0, []);
    assert Replay(state, once) == (d.0, r.1 + d.1);
    assert Replay(state, twice) == (d.0, r.1 + d.1 + []);
    assert r.1 + d.1 + [] == r.1 + d.1;
  }

  /** One monitored device: its identity, the assertions about it, and the
      snapshot of its receiver variables. */
  class DeviceMonitor {
    const deviceId: string
    const ip: string
    const udn: string
    const assertions: seq<StateAssertion>
    var state: State

    constructor(deviceId: string, ip: string, udn: string, assertions: seq<StateAssertion>)
      ensures this.deviceId == deviceId && this.ip == ip && this.udn == udn
      ensures this.assertions == assertions && state == map[]
    {
      this.deviceId := deviceId;
      this.ip := ip;
      this.udn := udn;
      this.assertions := assertions;
      state := map[];
    }

    /** `_parse_initial_event`: the lines of the subscription reply are scanned
        in order, and each EVENT line sets in the snapshot the variables it reports. */
    method ParseInitialEvent(buffer: string)
      modifies this
      ensures var lines := SplitLines(buffer);
              state == ScanLines(old(state), lines, |lines|)
    {
      var lines := SplitLines(buffer);
      for i := 0 to |lines|
        invariant state == ScanLines(old(state), lines, i)
      {
        ScanLineOverlays(state, lines[i]);
        assert Reports(lines)[i] == Reported(lines[i]);
        state := ScanLine(state, lines[i]);
      }
    }

    /** `_process_event` on a stripped line without newline: the snapshot takes
        the reported values, the changes are returned, and every change is
        offered, with its new value, to every assertion in turn.  `raised`
        tells that formatting an elapsed time failed, which ends the processing
        of the event at that point. */
    method ProcessEvent(line: string, now: nat) returns (changes: seq<Change>, raised: bool)
      requires '\n' !in line
      modifies this, assertions
      ensures (state, changes) == EventEffect(old(state), line)
      ensures AllAdvance(assertions, old(Snapshots(assertions)), Snapshots(assertions), deviceId, changes)
      ensures MetAt(old(Snapshots(assertions)), Snapshots(assertions), now)
      ensures !raised ==> FiredMet(assertions, Snapshots(assertions), deviceId, changes)
      ensures raised <==> RaisesOnPrint(old(Snapshots(assertions)), Snapshots(assertions))
    {
      changes := ApplyEvent(line);
      raised := OfferChanges(changes, now);
    }

    /** The parsing and diffing half of `_process_event`: a line that does not
        parse changes nothing; otherwise each recognised variable the rest of
        the line reports is compared with the snapshot, in the order of
        `Variables`, and updated when it differs. */
    method ApplyEvent(line: string) returns (changes: seq<Change>)
      requires '\n' !in line
      modifies this
      ensures (state, changes) == EventEffect(old(state), line)
    {
      changes := [];
      var head := EventMatch(line);
      if head.None? {
        assert EventEffect(old(state), line) == (old(state), []);
        return;
      }
      var rest := head.value.rest;
      ghost var found := Found(rest);
      assert EventEffect(old(state), line) == DiffAll(old(state), found, Variables);
      assert Variables[0..] == Variables;
      var i := 0;
      while i < |Variables|
        invariant i <= |Variables|
        invariant DiffAll(state, found, Variables[i..]).0 == DiffAll(old(state), found, Variables).0
        invariant changes + DiffAll(state, found, Variables[i..]).1 == DiffAll(old(state), found, Variables).1
      {
        var name := Variables[i];
        FoundMeaning(rest, name);
        var m := Extract(rest, name);
        assert Variables[i..][1..] == Variables[i + 1..];
        ghost var d := Diff(state, found, name);
        ghost var before0 := changes;
        ghost var tail := DiffAll(d.0, found, Variables[i + 1..]);
        assert DiffAll(state, found, Variables[i..]) == (tail.0, d.1 + tail.1);
        if m.Some? {
          var before := Get(state, name);
          if before != Some(m.value) {
            changes := changes + [Change(name, before, m.value)];
            state := state[name := m.value];
          }
        }
        assert state == d.0 && changes == before0 + d.1;
        Associative(before0, d.1, tail.1);
        i := i + 1;
      }
      assert Variables[i..] == [];
      assert DiffAll(state, found, Variables[i..]) == (state, []);
      assert changes + [] == changes;
    }

    /** The reporting half of `_process_event`: each change, in order, is
        offered with its new value to each assertion, in order.  Formatting the
        elapsed time of an assertion just met raises when it has none, which
        stops the loops. */
    method OfferChanges(changes: seq<Change>, now: nat) returns (raised: bool)
      modifies assertions
      ensures AllAdvance(assertions, old(Snapshots(assertions)), Snapshots(assertions), deviceId, changes)
      ensures MetAt(old(Snapshots(assertions)), Snapshots(assertions), now)
      ensures !raised ==> FiredMet(assertions, Snapshots(assertions), deviceId, changes)
      ensures raised <==> RaisesOnPrint(old(Snapshots(assertions)), Snapshots(assertions))
    {
      raised := OfferEach(changes, now);
      // The same promises, restated on the snapshots of all assertions.
      ghost var list := assertions;
      ghost var ps := old(Snapshots(assertions));
      ghost var qs := Snapshots(assertions);
      assert AllAdvance(list, ps, qs, deviceId, changes) by {
        forall i | 0 <= i < |list|
          ensures Advances(list[i], ps[i], qs[i], deviceId, changes)
        {
          assert list[i] in list;
        }
      }
      assert MetAt(ps, qs, now) by {
        forall i | 0 <= i < |ps| && !ps[i].met && qs[i].met
          ensures qs[i].metTime == Some(now)
        {
          assert list[i] in list;
        }
      }
      if raised {
        assert RaisesOnPrint(ps, qs) by {
          ghost var a :| a in list && a.met && !old(a.met) && a.ElapsedTime().None?;
          ghost var i :| 0 <= i < |list| && list[i] == a;
          assert ps[i] == old(a.Snapshot()) && qs[i] == a.Snapshot();
        }
      } else {
        assert FiredMet(list, qs, deviceId, changes) by {
          forall i | 0 <= i < |list| && Fired(list[i], deviceId, changes)
            ensures qs[i].met
          {
            assert list[i] in list;
          }
        }
        assert !RaisesOnPrint(ps, qs) by {
          forall i | 0 <= i < |ps| && !ps[i].met && qs[i].met
            ensures ElapsedOf(qs[i]).Some?
          {
            assert ps[i] == old(list[i].Snapshot()) && qs[i] == list[i].Snapshot();
            assert list[i] in list;
          }
        }
      }
    }

    /** The loops of `OfferChanges`, with what they promise about each assertion. */
    method OfferEach(changes: seq<Change>, now: nat) returns (raised: bool)
      modifies assertions
      ensures forall a :: a in assertions && old(a.met) ==> unchanged(a)
      ensures forall a :: a in assertions && !a.met ==> unchanged(a)
      ensures forall a :: a in assertions && a.met && !old(a.met) ==>
                a.metTime == Some(now) && a.actualValue == Some(a.expectedValue)
                && a.startTime == old(a.startTime) && Fired(a, deviceId, changes)
      ensures !raised ==> forall a :: a in assertions && Fired(a, deviceId, changes) ==> a.met
      ensures raised <==> exists a :: a in assertions && a.met && !old(a.met) && a.ElapsedTime().None?
    {
      raised := false;
      var ci := 0;
      while ci < |changes|
        invariant ci <= |changes|
        invariant forall a :: a in assertions && old(a.met) ==> unchanged(a)
        invariant forall a :: a in assertions && !a.met ==> unchanged(a)
        invariant forall a :: a in assertions && a.met && !old(a.met) ==>
                    a.metTime == Some(now) && a.actualValue == Some(a.expectedValue)
                    && a.startTime == old(a.startTime) && Fired(a, deviceId, changes)
        invariant forall a :: a in assertions && Fired(a, deviceId, changes[..ci]) ==> a.met
        invariant !exists a :: a in assertions && a.met && !old(a.met) && ElapsedOf(a.Snapshot()).None?
      {
        var c := changes[ci];
        var j := 0;
        while j < |assertions|
          invariant j <= |assertions|
          invariant forall a :: a in assertions && old(a.met) ==> unchanged(a)
          invariant forall a :: a in assertions && !a.met ==> unchanged(a)
          invariant forall a :: a in assertions && a.met && !old(a.met) ==>
                      a.metTime == Some(now) && a.actualValue == Some(a.expectedValue)
                      && a.startTime == old(a.startTime) && Fired(a, deviceId, changes)
          invariant forall a :: (a in assertions && (Fired(a, deviceId, changes[..ci])
                      || (a in assertions[..j] && a.Expects(deviceId, c.name, c.after)))) ==> a.met
          invariant !exists a :: a in assertions && a.met && !old(a.met) && ElapsedOf(a.Snapshot()).None?
        {
          var a := assertions[j];
          var ok := a.Check(deviceId, c.name, c.after, now);
          if ok {
            var elapsed := a.ElapsedTime();
            if elapsed.None? {
              raised := true;
              return;
            }
          }
          assert assertions[..j + 1] == assertions[..j] + [a];
          j := j + 1;
        }
        assert changes[..ci + 1] == changes[..ci] + [c];
        ci := ci + 1;
      }
      assert changes[..ci] == changes;
    }

    /** One complete line in `listen`: stripped, skipped when blank, and
        processed when it starts with `EVENT`. */
    method HandleLine(raw: string, now: nat) returns (changes: seq<Change>, raised: bool, ghost report: Option<State>)
      requires '\n' !in raw
      modifies this, assertions
      ensures ReportsOf([raw], [report])
      ensures (state, changes) == Step(old(state), report)
      ensures AllAdvance(assertions, old(Snapshots(assertions)), Snapshots(assertions), deviceId, changes)
      ensures MetAt(old(Snapshots(assertions)), Snapshots(assertions), now)
      ensures !raised ==> FiredMet(assertions, Snapshots(assertions), deviceId, changes)
      ensures raised <==> RaisesOnPrint(old(Snapshots(assertions)), Snapshots(assertions))
    {
      report := LineReport(raw);
      var line := Strip(raw);
      StripKeeps(raw, '\n');
      if line != [] && StartsWith(line, "EVENT") {
        changes, raised := ProcessEvent(line, now);
      } else {
        changes, raised := [], false;
        AdvanceRefl(assertions, Snapshots(assertions), deviceId, now);
      }
    }

    /** The inner loop of `listen`: complete lines are split off `buffer` and
        handled in order, until no newline is left or handling a line raises.
        `done` are the lines handled before, which took the snapshot from
        `start` to the current one and reported `before`.  Returns the lines
        split off, the rest of the buffer, the changes reported and whether
        handling raised. */
    method DrainLines(ghost start: State, ghost p0: seq<Progress>, ghost done: seq<string>,
                      ghost doneReports: seq<Option<State>>, ghost before: seq<Change>, buffer: string, now: nat)
      returns (lines: seq<string>, rest: string, changes: seq<Change>, raised: bool,
               ghost reports: seq<Option<State>>)
      requires ReportsOf(done, doneReports) && (state, before) == Replay(start, doneReports)
      requires AllAdvance(assertions, p0, Snapshots(assertions), deviceId, before)
      requires FiredMet(assertions, Snapshots(assertions), deviceId, before)
      requires !RaisesOnPrint(p0, Snapshots(assertions))
      modifies this, assertions
      ensures Terminated(done + lines) + rest == Terminated(done) + buffer
      ensures ReportsOf(done + lines, doneReports + reports)
      ensures !raised ==> '\n' !in rest
      ensures (state, before + changes) == Replay(start, doneReports + reports)
      ensures AllAdvance(assertions, p0, Snapshots(assertions), deviceId, before + changes)
      ensures !raised ==> FiredMet(assertions, Snapshots(assertions), deviceId, before + changes)
      ensures raised <==> RaisesOnPrint(p0, Snapshots(assertions))
    {
      lines := [];
      rest := buffer;
      changes := [];
      raised := false;
      reports := [];
      assert done + lines == done;
      assert doneReports + reports == doneReports;
      assert before + changes == before;
      while !raised && '\n' in rest
        invariant Terminated(done + lines) + rest == Terminated(done) + buffer
        invariant ReportsOf(done + lines, doneReports + reports)
        invariant (state, before + changes) == Replay(start, doneReports + reports)
        invariant AllAdvance(assertions, p0, Snapshots(assertions), deviceId, before + changes)
        invariant !raised ==> FiredMet(assertions, Snapshots(assertions), deviceId, before + changes)
        invariant raised <==> RaisesOnPrint(p0, Snapshots(assertions))
        decreases |rest|
      {
        var parts := SplitOnce(rest, '\n');
        SplitOff(done + lines, rest, parts.0, parts.1);
        Associative(done, lines, [parts.0]);
        ghost var p1 := Snapshots(assertions);
        var c, r, report := HandleLine(parts.0, now);
        AdvanceTrans(assertions, p0, p1, Snapshots(assertions), deviceId, before + changes, c);
        ProgressTrans(assertions, p0, p1, Snapshots(assertions), deviceId, before + changes, c);
        ReportsOfAppend(done + lines, doneReports + reports, [parts.0], [report]);
        ReplayMore(start, doneReports + reports, report);
        Associative(doneReports, reports, [report]);
        Associative(before, changes, c);
        lines := lines + [parts.0];
        reports := reports + [report];
        rest := parts.1;
        changes := changes + c;
        raised := r;
      }
    }

    /** Lines `lines` with reports `reports` took the snapshot from `start`
        to the current one, recording `changes`, and advanced the assertions
        from `p0`; `raised` says whether handling the last one raised. */
    ghost predicate Handled(start: State, p0: seq<Progress>, lines: seq<string>, reports: seq<Option<State>>,
                            changes: seq<Change>, raised: bool)
      reads this, assertions
    {
      ReportsOf(lines, reports) && (state, changes) == Replay(start, reports)
      && AllAdvance(assertions, p0, Snapshots(assertions), deviceId, changes)
      && (!raised ==> FiredMet(assertions, Snapshots(assertions), deviceId, changes))
      && (raised <==> RaisesOnPrint(p0, Snapshots(assertions)))
    }

    /** The receive loop of `listen`: chunks are appended to a buffer until the
        device closes the connection (an empty chunk), and the complete lines
        of the buffer are handled after each chunk.  Returns the complete lines
        in order, what is left of the buffer, how many chunks were taken, the
        changes reported, and whether handling a line raised, which ends the loop. */
    method Listen(chunks: seq<Received>)
      returns (lines: seq<string>, buffer: string, taken: nat, changes: seq<Change>, raised: bool,
               ghost reports: seq<Option<State>>)
      modifies this, assertions
      ensures taken <= |chunks|
      ensures forall k :: 0 <= k < taken ==> |chunks[k].text| > 0
      ensures !raised ==> taken == |chunks| || |chunks[taken].text| == 0
      ensures Terminated(lines) + buffer == Arrived(chunks, taken)
      ensures ReportsOf(lines, reports)
      ensures !raised ==> '\n' !in buffer
      ensures (state, changes) == Replay(old(state), reports)
      ensures AllAdvance(assertions, old(Snapshots(assertions)), Snapshots(assertions), deviceId, changes)
      ensures !raised ==> FiredMet(assertions, Snapshots(assertions), deviceId, changes)
      ensures raised <==> RaisesOnPrint(old(Snapshots(assertions)), Snapshots(assertions))
    {
      lines := [];
      buffer := "";
      taken := 0;
      changes := [];
      raised := false;
      reports := [];
      ghost var p0 := Snapshots(assertions);
      AdvanceRefl(assertions, p0, deviceId, 0);
      while !raised && taken < |chunks| && |chunks[taken].text| > 0
        invariant Received(chunks, taken, lines, buffer, raised)
        invariant Handled(old(state), p0, lines, reports, changes, raised)
      {
        lines, buffer, changes, raised, reports := ReceiveChunk(old(state), p0, chunks, taken, lines, buffer, changes, reports);
        taken := taken + 1;
      }
    }

    /** The first `taken` chunks were not empty and arrived as the complete
        `lines` followed by `buffer`, which holds no newline unless handling
        raised. */
    predicate Received(chunks: seq<Received>, taken: nat, lines: seq<string>, buffer: string, raised: bool) {
      taken <= |chunks| && (forall k :: 0 <= k < taken ==> |chunks[k].text| > 0)
      && Terminated(lines) + buffer == Arrived(chunks, taken) && (!raised ==> '\n' !in buffer)
    }

    /** One pass of the receive loop: chunk `n` is appended to the buffer and
        the complete lines are handled. */
    method ReceiveChunk(ghost start: State, ghost p0: seq<Progress>, chunks: seq<Received>, n: nat,
                        lines: seq<string>, buffer: string, changes: seq<Change>, ghost reports: seq<Option<State>>)
      returns (lines': seq<string>, buffer': string, changes': seq<Change>, raised': bool,
               ghost reports': seq<Option<State>>)
      requires Received(chunks, n, lines, buffer, false) && n < |chunks| && |chunks[n].text| > 0
      requires Handled(start, p0, lines, reports, changes, false)
      modifies this, assertions
      ensures Received(chunks, n + 1, lines', buffer', raised')
      ensures Handled(start, p0, lines', reports', changes', raised')
    {
      var chunk := chunks[n];
      var more, rest, c, r, moreReports := DrainLines(start, p0, lines, reports, changes, buffer + chunk.text, chunk.at);
      TakeChunk(chunks, n, lines, buffer, more, rest);
      lines', buffer', changes', raised', reports' := lines + more, rest, changes + c, r, reports + moreReports;
    }
  }

  /** How `_format_state` shows a Sender: in full up to 50 characters, abbreviated beyond that. */
  function SenderPart(sender: string): (r: string)
    ensures StartsWith(r, "Sender=")
    ensures |r| <= |"Sender="| + 50
    ensures r == "Sender=" + sender <==> |sender| <= 50
    ensures |sender| > 50 && StartsWith(sender, "ohz://") ==> r == "Sender=ohz://..."
    ensures |sender| > 50 && !StartsWith(sender, "ohz://") && StartsWith(sender, "ohSongcast://") ==>
              r == "Sender=ohSongcast://..."
    ensures |sender| > 50 && !StartsWith(sender, "ohz://") && !StartsWith(sender, "ohSongcast://") ==>
              r == "Sender=" + sender[..30] + "..."
  {
    if |sender| <= 50 then "Sender=" + sender
    else
      var r := if StartsWith(sender, "ohz://") then "Sender=ohz://..."
               else if StartsWith(sender, "ohSongcast://") then "Sender=ohSongcast://..."
               else "Sender=" + sender[..30] + "...";
      assert |r| < |"Sender=" + sender|;
      r
  }

  /** The parts `_format_state` lists: Transport, Sender, Status, each only when present. */
  function StateParts(state: State): (parts: seq<string>)
    ensures |parts| == (if "TransportState" in state then 1 else 0) + (if "Sender" in state then 1 else 0)
                       + (if "Status" in state then 1 else 0)
    ensures "TransportState" in state ==> parts[0] == "Transport=" + state["TransportState"]
    ensures "Sender" in state ==> parts[if "TransportState" in state then 1 else 0] == SenderPart(state["Sender"])
    ensures "Status" in state ==> parts[|parts| - 1] == "Status=" + state["Status"]
    ensures forall k :: 0 <= k < |parts| ==> |parts[k]| > 0 && (parts[k][0] == 'T' || parts[k][0] == 'S')
  {
    (if "TransportState" in state then ["Transport=" + state["TransportState"]] else [])
    + (if "Sender" in state then [SenderPart(state["Sender"])] else [])
    + (if "Status" in state then ["Status=" + state["Status"]] else [])
  }

  /** `_format_state`: the parts joined with `, `, or `No state` exactly when
      none of the three variables is known. */
  function FormatState(state: State): (r: string)
    ensures r == "No state" <==> "TransportState" !in state && "Sender" !in state && "Status" !in state
    ensures StateParts(state) != [] ==> r == JoinWith(StateParts(state), ", ") && StartsWith(r, StateParts(state)[0])
  {
    var parts := StateParts(state);
    if parts == [] then "No state"
    else
      JoinWithStarts(parts, ", ");
      var r := JoinWith(parts, ", ");
      assert r[0] == parts[0][0];
      r
  }

  /** `_format_uri`: a compact form of a Sender URI for display. */
  function FormatUri(uri: string): (r: string)
    ensures |uri| == 0 ==> r == "None"
    ensures |uri| > 0 && !StartsWith(uri, "ohz://") && !StartsWith(uri, "ohSongcast://") ==>
              (|uri| <= 60 ==> r == uri) && (|uri| > 60 ==> r == uri[..60] + "...")
  {
    if |uri| == 0 then "None"
    else if StartsWith(uri, "ohz://") then
      match SearchRun(uri, "ohz://", '/', "", 0)
      case Some(host) => "ohz://" + host + "/..."
      case None => "ohz://..."
    else if StartsWith(uri, "ohSongcast://") then
      var room := match SearchRun(uri, "room=", '&', "", 0) case Some(v) => v case None => "?";
      "ohSongcast://[" + room + "]"
    else if |uri| > 60 then
      uri[..60] + "..."
    else uri
  }

  /** An `ohz://` URI is shown by its host, the part before the first `/` after the scheme. */
  lemma FormatUriOhz(host: string, path: string)
    requires |host| > 0 && '/' !in host
    ensures FormatUri("ohz://" + host + "/" + path) == "ohz://" + host + "/..."
  {
    var uri := "ohz://" + host + "/" + path;
    assert StartsWith(uri, "ohz://") by {
      assert forall i :: 0 <= i < 6 ==> uri[i] == "ohz://"[i];
    }
    assert uri[6..6 + |host|] == host;
    assert uri[6 + |host|] == '/';
    assert FindFrom(uri, '/', 6) == 6 + |host| by {
      assert forall k :: 6 <= k < 6 + |host| ==> uri[k] == host[k - 6];
    }
    assert OccursAt(uri, "ohz://", 0) by {
      assert uri[..6] == "ohz://";
    }
    SearchRunFirst(uri, "ohz://", '/', "", 0, 0);
  }

  /** An `ohSongcast://` URI is shown by the value of its `room` parameter, or `?` without one. */
  lemma FormatUriRoom(udn: string, room: string, tail: string)
    requires '=' !in udn && |room| > 0 && '&' !in room && (|tail| == 0 || tail[0] == '&')
    ensures FormatUri("ohSongcast://" + udn + "?room=" + room + tail) == "ohSongcast://[" + room + "]"
  {
    var head := "ohSongcast://" + udn + "?";
    var uri := head + "room=" + room + tail;
    assert uri == "ohSongcast://" + udn + "?room=" + room + tail;
    assert StartsWith(uri, "ohSongcast://") by {
      assert forall i :: 0 <= i < 13 ==> uri[i] == "ohSongcast://"[i];
    }
    assert !StartsWith(uri, "ohz://") by {
      assert uri[2] == 'S';
    }
    assert '=' !in head by {
      assert '=' !in "ohSongcast://" && '=' !in "?";
    }
    RoomRun(head, room, tail);
  }

  /** The `room=` search finds the first `room=`, which follows a head without `=`. */
  lemma RoomRun(head: string, room: string, tail: string)
    requires '=' !in head && |room| > 0 && '&' !in room && (|tail| == 0 || tail[0] == '&')
    ensures SearchRun(head + "room=" + room + tail, "room=", '&', "", 0) == Some(room)
  {
    var uri := head + "room=" + room + tail;
    RoomAt(head, room, tail);
    NoRoomBefore(head, room, tail);
    SearchRunFirst(uri, "room=", '&', "", 0, |head|);
  }

  /** Right after the head, `room=` matches and captures the room. */
  lemma RoomAt(head: string, room: string, tail: string)
    requires |room| > 0 && '&' !in room && (|tail| == 0 || tail[0] == '&')
    ensures RunAt(head + "room=" + room + tail, "room=", '&', "", |head|) == Some(room)
  {
    var uri := head + "room=" + room + tail;
    var p := |head|;
    assert OccursAt(uri, "room=", p) by {
      assert uri[p..p + 5] == "room=";
    }
    assert FindFrom(uri, '&', p + 5) == p + 5 + |room| by {
      assert forall k :: p + 5 <= k < p + 5 + |room| ==> uri[k] == room[k - p - 5];
      assert p + 5 + |room| < |uri| ==> uri[p + 5 + |room|] == '&';
    }
    assert uri[p + 5..p + 5 + |room|] == room;
  }

  /** No `room=` starts inside a head without `=`. */
  lemma NoRoomBefore(head: string, room: string, tail: string)
    requires '=' !in head
    ensures forall q :: 0 <= q < |head| ==> RunAt(head + "room=" + room + tail, "room=", '&', "", q).None?
  {
    var uri := head + "room=" + room + tail;
    var p := |head|;
    forall q | 0 <= q < p ensures RunAt(uri, "room=", '&', "", q).None? {
      assert uri[q + 4] != '=' by {
        if q + 4 < p {
          assert uri[q + 4] == head[q + 4];
        } else {
          assert uri[q + 4] == "room="[q + 4 - p];
        }
      }
      assert uri[q..q + 5][4] != "room="[4];
    }
  }

  /** The keys naming the master, and the keys naming the members. */
  const MasterKeys: set<string> := {"SONGCAST_MASTER", "SONGCAST_SENDER"}
  const MemberKeys: set<string> := {"SONGCAST_MEMBERS", "SONGCAST_RECEIVERS"}

  /** `load_env_config` on the lines of the `.env` file: the master, if its id
      names a device, and the devices to monitor, master first, then the
      members with a device entry in the listed order. */
  method LoadEnvConfig(lines: seq<string>) returns (master: Option<EnvFile.Device>, all: seq<EnvFile.Device>)
    ensures var cfg := EnvFile.Read(lines, |lines|, MasterKeys, MemberKeys);
            master == (if cfg.master.Some? && |cfg.master.value| > 0 && cfg.master.value in cfg.devices
                       then Some(EnvFile.Device(cfg.master.value, cfg.devices[cfg.master.value].ip, cfg.devices[cfg.master.value].udn))
                       else None)
    ensures var cfg := EnvFile.Read(lines, |lines|, MasterKeys, MemberKeys);
            all == (if master.Some? then [master.value] else []) + EnvFile.Known(cfg.devices, cfg.members)
  {
    var cfg := EnvFile.Empty;
    for i := 0 to |lines|
      invariant cfg == EnvFile.Read(lines, i, MasterKeys, MemberKeys)
    {
      cfg := EnvFile.Absorb(cfg, lines[i], MasterKeys, MemberKeys);
    }
    master := None;
    if cfg.master.Some? && |cfg.master.value| > 0 && cfg.master.value in cfg.devices {
      var e := cfg.devices[cfg.master.value];
      master := Some(EnvFile.Device(cfg.master.value, e.ip, e.udn));
    }
    all := (if master.Some? then [master.value] else []) + EnvFile.Known(cfg.devices, cfg.members);
  }

  /** `SONGCAST_MASTER` and `SONGCAST_SENDER` are the same setting. */
  lemma MasterAliases(cfg: EnvFile.Config, id: string)
    requires Stripped(id) && '#' !in id
    ensures EnvFile.Absorb(cfg, "SONGCAST_MASTER" + "=" + id, MasterKeys, MemberKeys) == cfg.(master := Some(id))
    ensures EnvFile.Absorb(cfg, "SONGCAST_SENDER" + "=" + id, MasterKeys, MemberKeys) == cfg.(master := Some(id))
  {
    assert "SONGCAST_MASTER"[0] != "DEVICE"[0] && "SONGCAST_SENDER"[0] != "DEVICE"[0];
    assert "SONGCAST_MASTER" in MasterKeys && "SONGCAST_SENDER" in MasterKeys;
    EnvFile.AbsorbMaster(cfg, "SONGCAST_MASTER", id, MasterKeys, MemberKeys);
    EnvFile.AbsorbMaster(cfg, "SONGCAST_SENDER", id, MasterKeys, MemberKeys);
  }
}
