/** Character and string operations with the meaning Python's `str` gives them.
    Every tool of the repository reads device replies and `.env` lines through
    these: `strip`, `lower`, `startswith`, `in`, `split`, `splitlines`, `int`,
    and the one regular-expression shape they all use, `Name\s+"([^"]*)"`. */
module Text {

  datatype Option<T> = None | Some(value: T)

  /** A string that may be `None`, that is truthy: present and not empty. */
  predicate Present(o: Option<string>) { o.Some? && o.value != [] }

  /** Python's `a or b` on two strings that may be `None`. */
  function Or(a: Option<string>, b: Option<string>): (r: Option<string>)
    ensures Present(r) <==> Present(a) || Present(b)
  {
    if Present(a) then a else b
  }

  /** Python's `a or fallback` on a string that may be `None`. */
  function OrElse(a: Option<string>, fallback: string): (r: string)
    ensures Present(a) ==> r == a.value
    ensures !Present(a) ==> r == fallback
  {
    if Present(a) then a.value else fallback
  }

  /** Python's `str.isspace()` for one character: what `strip()`, `split()`
      and the regex class `\s` treat as whitespace. */
  predicate IsSpace(c: char) {
    c == ' ' || ('\t' <= c <= '\r') || ('\U{1C}' <= c <= '\U{1F}') || c == '\U{85}' || c == '\U{A0}'
    || c == '\U{1680}' || ('\U{2000}' <= c <= '\U{200A}') || c == '\U{2028}' || c == '\U{2029}'
    || c == '\U{202F}' || c == '\U{205F}' || c == '\U{3000}'
  }

  /** Number of whitespace characters in `s` from position `i` on. */
  function SpacesFrom(s: string, i: nat): (n: nat)
    requires i <= |s|
    ensures i + n <= |s|
    ensures forall k :: i <= k < i + n ==> IsSpace(s[k])
    ensures i + n < |s| ==> !IsSpace(s[i + n])
    decreases |s| - i
  {
    if i < |s| && IsSpace(s[i]) then 1 + SpacesFrom(s, i + 1) else 0
  }

  /** Number of whitespace characters in `s` just before position `j`. */
  function SpacesBefore(s: string, j: nat): (n: nat)
    requires j <= |s|
    ensures n <= j
    ensures forall k :: j - n <= k < j ==> IsSpace(s[k])
    ensures n < j ==> !IsSpace(s[j - 1 - n])
  {
    if j > 0 && IsSpace(s[j - 1]) then 1 + SpacesBefore(s, j - 1) else 0
  }

  /** Python's `s.strip()`: from the first to the last non-whitespace character. */
  function Strip(s: string): (r: string)
    ensures |r| <= |s|
  {
    var a := SpacesFrom(s, 0);
    if a == |s| then "" else s[a..|s| - SpacesBefore(s, |s|)]
  }

  /** `strip()` keeps the infix of `s` that starts and ends with non-whitespace,
      and what it drops at either end is whitespace only. */
  lemma StripMeaning(s: string)
    ensures SpacesFrom(s, 0) + |Strip(s)| <= |s|
    ensures Strip(s) == s[SpacesFrom(s, 0)..SpacesFrom(s, 0) + |Strip(s)|]
    ensures Stripped(Strip(s))
    ensures forall k :: 0 <= k < |s| && !(SpacesFrom(s, 0) <= k < SpacesFrom(s, 0) + |Strip(s)|) ==> IsSpace(s[k])
  {
  }

  /** No whitespace at either end: what `strip()` leaves. */
  predicate Stripped(s: string) {
    s == [] || (!IsSpace(s[0]) && !IsSpace(s[|s| - 1]))
  }

  /** Stripping a string without whitespace at its ends changes nothing. */
  lemma StripNoop(s: string)
    requires Stripped(s)
    ensures Strip(s) == s
  {
    if s != [] {
      assert SpacesFrom(s, 0) == 0;
      assert SpacesBefore(s, |s|) == 0;
    }
  }

  /** Stripping never brings in a character that was not there. */
  lemma StripKeeps(s: string, c: char)
    requires c !in s
    ensures c !in Strip(s)
  {
    StripMeaning(s);
    var n := SpacesFrom(s, 0);
    forall k | 0 <= k < |Strip(s)| ensures Strip(s)[k] != c {
      assert Strip(s)[k] == s[n + k];
    }
  }

  /** ASCII case folding (Python's `str.lower()` on ASCII letters). */
  function LowerChar(c: char): char {
    if 'A' <= c <= 'Z' then (c as int + 32) as char else c
  }

  function Lower(s: string): (r: string)
    ensures |r| == |s|
    ensures forall i :: 0 <= i < |s| ==> r[i] == LowerChar(s[i])
  {
    if s == [] then [] else [LowerChar(s[0])] + Lower(s[1..])
  }

  predicate StartsWith(s: string, p: string) {
    |p| <= |s| && forall i :: 0 <= i < |p| ==> s[i] == p[i]
  }

  predicate EndsWith(s: string, p: string) {
    |p| <= |s| && s[|s| - |p|..] == p
  }

  /** `sub` occurs in `s` starting at position `i`. */
  predicate OccursAt(s: string, sub: string, i: nat) {
    i + |sub| <= |s| && s[i..i + |sub|] == sub
  }

  /** Python's `sub in s` for strings. */
  predicate Contains(s: string, sub: string) {
    exists i: nat | i <= |s| :: OccursAt(s, sub, i)
  }

  /** Python's `s.find(c)` when `c` occurs: the first position of `c`. */
  function IndexOf(s: string, c: char): (i: nat)
    requires c in s
    ensures i < |s| && s[i] == c
    ensures c !in s[..i]
  {
    if s[0] == c then 0
    else
      var j := IndexOf(s[1..], c);
      assert s[..j + 1] == [s[0]] + s[1..][..j];
      j + 1
  }

  /** Position of the first `c` in `s` at or after `i`, or `|s|` when there is none. */
  function FindFrom(s: string, c: char, i: nat): (p: nat)
    requires i <= |s|
    ensures i <= p <= |s|
    ensures p < |s| ==> s[p] == c
    ensures forall k :: i <= k < p ==> s[k] != c
    decreases |s| - i
  {
    if i == |s| || s[i] == c then i else FindFrom(s, c, i + 1)
  }

  /** Python's `s.split(d)`: the pieces between occurrences of `d`, empty ones included. */
  function Split(s: string, d: char): (parts: seq<string>)
    ensures |parts| >= 1
    ensures forall k :: 0 <= k < |parts| ==> d !in parts[k]
    decreases |s|
  {
    if d in s then
      var i := IndexOf(s, d);
      [s[..i]] + Split(s[i + 1..], d)
    else [s]
  }

  /** Python's `d.join(parts)`. */
  function Join(parts: seq<string>, d: char): string
    decreases |parts|
  {
    if parts == [] then ""
    else if |parts| == 1 then parts[0]
    else parts[0] + [d] + Join(parts[1..], d)
  }

  /** Splitting and joining on the same separator gives the text back. */
  lemma {:induction false} JoinSplit(s: string, d: char)
    ensures Join(Split(s, d), d) == s
    decreases |s|
  {
    if d in s {
      var i := IndexOf(s, d);
      var head, tail := s[..i], s[i + 1..];
      var rest := Split(tail, d);
      assert Split(s, d) == [head] + rest;
      assert Join([head] + rest, d) == head + [d] + Join(rest, d) by {
        assert ([head] + rest)[1..] == rest;
      }
      JoinSplit(tail, d);
      assert s == head + [d] + tail;
    }
  }

  /** Python's `sep.join(parts)` for a separator of any length. */
  function JoinWith(parts: seq<string>, sep: string): string
    decreases |parts|
  {
    if parts == [] then ""
    else if |parts| == 1 then parts[0]
    else parts[0] + sep + JoinWith(parts[1..], sep)
  }

  /** A joined list starts with its first element. */
  lemma JoinWithStarts(parts: seq<string>, sep: string)
    requires parts != []
    ensures StartsWith(JoinWith(parts, sep), parts[0])
  {
    if |parts| > 1 {
      assert JoinWith(parts, sep) == parts[0] + (sep + JoinWith(parts[1..], sep));
    }
  }

  /** Python's `s[:n]`. */
  function Take(s: string, n: nat): (r: string)
    ensures |r| == if |s| <= n then |s| else n
    ensures StartsWith(s, r)
  {
    if |s| <= n then s else s[..n]
  }

  /** Python's `s.split(d, 1)` when `d` occurs (also `s.partition(d)` minus the separator). */
  function SplitOnce(s: string, d: char): (r: (string, string))
    requires d in s
    ensures d !in r.0
    ensures s == r.0 + [d] + r.1
  {
    var i := IndexOf(s, d);
    assert s == s[..i] + [d] + s[i + 1..];
    (s[..i], s[i + 1..])
  }

  /** Number of non-whitespace characters in `s` from position `i` on. */
  function WordFrom(s: string, i: nat): (n: nat)
    requires i <= |s|
    ensures i + n <= |s|
    ensures forall k :: i <= k < i + n ==> !IsSpace(s[k])
    ensures i + n < |s| ==> IsSpace(s[i + n])
    decreases |s| - i
  {
    if i < |s| && !IsSpace(s[i]) then 1 + WordFrom(s, i + 1) else 0
  }

  predicate IsWord(w: string) {
    w != [] && forall i :: 0 <= i < |w| ==> !IsSpace(w[i])
  }

  /** The fields of `s.split()` found from position `i` on. */
  function SplitWsFrom(s: string, i: nat): (fields: seq<string>)
    requires i <= |s|
    ensures forall k :: 0 <= k < |fields| ==> IsWord(fields[k])
    ensures fields == [] <==> forall k :: i <= k < |s| ==> IsSpace(s[k])
    decreases |s| - i
  {
    var a := i + SpacesFrom(s, i);
    if a == |s| then []
    else
      var b := a + WordFrom(s, a);
      [s[a..b]] + SplitWsFrom(s, b)
  }

  /** Python's `s.split()`: the maximal runs of non-whitespace, never an empty field. */
  function SplitWs(s: string): (fields: seq<string>)
    ensures forall k :: 0 <= k < |fields| ==> IsWord(fields[k])
    ensures fields == [] <==> forall k :: 0 <= k < |s| ==> IsSpace(s[k])
  {
    SplitWsFrom(s, 0)
  }

  /** Two words separated by one space split back into those two words. */
  lemma SplitWsPair(a: string, b: string)
    requires IsWord(a) && IsWord(b)
    ensures SplitWs(a + " " + b) == [a, b]
  {
    var s := a + " " + b;
    assert SpacesFrom(s, 0) == 0 by { assert s[0] == a[0]; }
    var n := WordFrom(s, 0);
    assert n == |a| by {
      assert s[|a|] == ' ';
      assert forall k :: 0 <= k < |a| ==> s[k] == a[k];
    }
    assert SpacesFrom(s, |a|) == 1 by { assert s[|a| + 1] == b[0]; }
    var m := WordFrom(s, |a| + 1);
    assert m == |b| by {
      assert forall k :: 0 <= k < |b| ==> s[|a| + 1 + k] == b[k];
    }
    assert SplitWsFrom(s, |s|) == [];
    assert s[0..|a|] == a;
    assert s[|a| + 1..|s|] == b;
    assert SplitWsFrom(s, |a|) == [b];
    assert SplitWsFrom(s, 0) == [a] + [b];
  }

  /** The line boundaries of Python's `str.splitlines()`. */
  predicate IsLineBreak(c: char) {
    c == '\n' || c == '\r' || c == '\U{B}' || c == '\U{C}' || ('\U{1C}' <= c <= '\U{1E}')
    || c == '\U{85}' || c == '\U{2028}' || c == '\U{2029}'
  }

  predicate NoLineBreak(s: string) {
    forall i :: 0 <= i < |s| ==> !IsLineBreak(s[i])
  }

  /** Position of the first line boundary of `s`, or `|s|` when there is none. */
  function FirstBreak(s: string): (i: nat)
    ensures i <= |s|
    ensures NoLineBreak(s[..i])
    ensures i < |s| ==> IsLineBreak(s[i])
  {
    if s == [] || IsLineBreak(s[0]) then 0
    else
      var j := FirstBreak(s[1..]);
      assert s[..j + 1] == [s[0]] + s[1..][..j];
      j + 1
  }

  /** Python's `s.splitlines()`: `\r\n` is one boundary and a final boundary adds no empty line. */
  function SplitLines(s: string): (lines: seq<string>)
    ensures forall k :: 0 <= k < |lines| ==> NoLineBreak(lines[k])
    ensures s == [] <==> lines == []
    decreases |s|
  {
    if s == [] then []
    else
      var i := FirstBreak(s);
      if i == |s| then [s]
      else
        var w := if s[i] == '\r' && i + 1 < |s| && s[i + 1] == '\n' then 2 else 1;
        [s[..i]] + SplitLines(s[i + w..])
  }

  /** The chunks of a stream put back together. */
  function Concat(chunks: seq<string>): string {
    if chunks == [] then "" else Concat(chunks[..|chunks| - 1]) + chunks[|chunks| - 1]
  }

  /** Taking one more chunk appends it. */
  lemma ConcatStep(chunks: seq<string>, n: nat)
    requires n < |chunks|
    ensures Concat(chunks[..n + 1]) == Concat(chunks[..n]) + chunks[n]
  {
    assert chunks[..n + 1][..n] == chunks[..n];
  }

  /** Lines written out, each followed by a newline. */
  function Terminated(lines: seq<string>): string {
    if lines == [] then "" else Terminated(lines[..|lines| - 1]) + lines[|lines| - 1] + "\n"
  }

  /** Text cut into newline-terminated lines and an unterminated tail is
      exactly what `split('\n')` makes of it: the lines, then the tail. */
  lemma {:induction false} TerminatedIsSplit(lines: seq<string>, tail: string)
    requires forall k :: 0 <= k < |lines| ==> '\n' !in lines[k]
    requires '\n' !in tail
    ensures Split(Terminated(lines) + tail, '\n') == lines + [tail]
    decreases |lines|
  {
    if lines != [] {
      // Peel the first line off, so that the induction follows Split's own recursion.
      var first, rest := lines[0], lines[1..];
      assert lines == [first] + rest;
      TerminatedCons(first, rest);
      var more := Terminated(rest) + tail;
      var text := Terminated(lines) + tail;
      assert text == first + ['\n'] + more;
      assert text[|first|] == '\n';
      var i := IndexOf(text, '\n');
      FirstSeparator(first, '\n', more, i);
      assert text[..i] == first;
      assert text[i + 1..] == more;
      TerminatedIsSplit(rest, tail);
      assert Split(text, '\n') == [first] + Split(more, '\n');
      assert lines + [tail] == [first] + (rest + [tail]);
    } else {
      assert Terminated(lines) + tail == tail;
    }
  }

  /** `Terminated` read from the front: the first line, its newline, the others. */
  /** Terminating two runs of lines one after the other terminates them all. */
  lemma {:induction false} TerminatedAppend(lines: seq<string>, more: seq<string>)
    ensures Terminated(lines + more) == Terminated(lines) + Terminated(more)
    decreases |more|
  {
    if more == [] {
      assert lines + more == lines;
    } else {
      var init := more[..|more| - 1];
      TerminatedAppend(lines, init);
      var all := lines + more;
      var last := more[|more| - 1];
      assert all[..|all| - 1] == lines + init;
      assert all[|all| - 1] == last;
      calc {
        Terminated(lines + more);
        Terminated(lines + init) + last + "\n";
        Terminated(lines) + Terminated(init) + last + "\n";
        { assert Terminated(init) + last + "\n" == Terminated(more); }
        Terminated(lines) + Terminated(more);
      }
    }
  }

  lemma {:induction false} TerminatedCons(first: string, rest: seq<string>)
    ensures Terminated([first] + rest) == first + "\n" + Terminated(rest)
    decreases |rest|
  {
    if rest != [] {
      var all := [first] + rest;
      assert all[..|all| - 1] == [first] + rest[..|rest| - 1];
      TerminatedCons(first, rest[..|rest| - 1]);
    } else {
      assert ([first] + rest)[..0] == [];
    }
  }

  /** The first `d` of `first + [d] + more` is the one after `first`. */
  lemma FirstSeparator(first: string, d: char, more: string, i: nat)
    requires d !in first
    requires i < |first + [d] + more| && (first + [d] + more)[i] == d
    requires d !in (first + [d] + more)[..i]
    ensures i == |first|
  {
    var text := first + [d] + more;
    assert text[|first|] == d;
    assert forall j :: 0 <= j < i ==> text[..i][j] == text[j];
    assert forall j :: 0 <= j < |first| ==> text[j] == first[j];
  }

  /** Concatenation regroups freely; stated once so that proofs can call it instead of re-deriving it. */
  lemma Associative<T>(a: seq<T>, b: seq<T>, c: seq<T>)
    ensures a + b + c == a + (b + c)
  {
  }

  /** Splitting once at the separator that follows a separator-free prefix gives that prefix and the rest. */
  lemma SplitOnceAt(first: string, d: char, more: string)
    requires d !in first
    ensures SplitOnce(first + [d] + more, d) == (first, more)
  {
    var text := first + [d] + more;
    var r := SplitOnce(text, d);
    FirstSeparator(first, d, more, IndexOf(text, d));
    assert text[..|first|] == first;
    assert text[|first| + 1..] == more;
  }

  /** Joining pieces that do not contain the separator and splitting again gives the pieces back. */
  lemma {:induction false} SplitJoin(parts: seq<string>, d: char)
    requires parts != []
    requires forall k :: 0 <= k < |parts| ==> d !in parts[k]
    ensures Split(Join(parts, d), d) == parts
    decreases |parts|
  {
    if |parts| > 1 {
      var first, rest := parts[0], parts[1..];
      var more := Join(rest, d);
      var text := Join(parts, d);
      assert text == first + [d] + more;
      assert d !in first;
      assert text[|first|] == d;
      var i := IndexOf(text, d);
      FirstSeparator(first, d, more, i);
      assert text[..i] == first;
      assert text[i + 1..] == more;
      assert Split(text, d) == [first] + Split(more, d);
      assert forall k :: 0 <= k < |rest| ==> d !in rest[k] by {
        forall k | 0 <= k < |rest| ensures d !in rest[k] { assert rest[k] == parts[k + 1]; }
      }
      SplitJoin(rest, d);
      assert parts == [first] + rest;
    } else {
      assert Join(parts, d) == parts[0];
      assert d !in parts[0];
    }
  }

  /** What `re.search(name + r'\s+"([^"]*)"', s)` captures when the match starts at
      position `i`: `name`, a run of whitespace, a quote, and everything up to the
      next quote. A missing closing quote or a missing blank means no match there. */
  function QuotedValueAt(s: string, name: string, i: nat): (r: Option<string>)
    ensures r.Some? ==> '"' !in r.value
  {
    if !OccursAt(s, name, i) then None
    else
      var j := i + |name|;
      var k := j + SpacesFrom(s, j);
      if k == j || k == |s| || s[k] != '"' then None
      else
        var e := FindFrom(s, '"', k + 1);
        if e == |s| then None
        else
          Some(s[k + 1..e])
  }

  /** The leftmost match at position `i` or later. */
  function ExtractFrom(s: string, name: string, i: nat): (r: Option<string>)
    ensures r.Some? ==> '"' !in r.value
    decreases |s| + 1 - i
  {
    if i > |s| then None
    else if QuotedValueAt(s, name, i).Some? then QuotedValueAt(s, name, i)
    else ExtractFrom(s, name, i + 1)
  }

  /** `re.search(name + r'\s+"([^"]*)"', s)`: the value captured by the leftmost match, if any. */
  function Extract(s: string, name: string): (r: Option<string>)
    ensures r.Some? ==> '"' !in r.value
  {
    ExtractFrom(s, name, 0)
  }

  /** The search from `i` finds the first position at or after `i` where the pattern matches. */
  lemma {:induction false} ExtractFromLeftmost(s: string, name: string, i: nat)
    ensures ExtractFrom(s, name, i).None? <==> forall p :: i <= p <= |s| ==> QuotedValueAt(s, name, p).None?
    ensures ExtractFrom(s, name, i).Some? ==>
              exists p :: i <= p <= |s| && QuotedValueAt(s, name, p) == ExtractFrom(s, name, i)
                          && forall q :: i <= q < p ==> QuotedValueAt(s, name, q).None?
    decreases |s| + 1 - i
  {
    if i <= |s| && QuotedValueAt(s, name, i).None? {
      ExtractFromLeftmost(s, name, i + 1);
      if ExtractFrom(s, name, i).Some? {
        var p :| i + 1 <= p <= |s| && QuotedValueAt(s, name, p) == ExtractFrom(s, name, i)
                 && forall q :: i + 1 <= q < p ==> QuotedValueAt(s, name, q).None?;
        assert forall q :: i <= q < p ==> QuotedValueAt(s, name, q).None?;
      }
    }
  }

  /** `Extract` is `re.search`: no match anywhere gives `None`, otherwise the
      capture of the leftmost match. */
  lemma ExtractIsLeftmost(s: string, name: string)
    ensures Extract(s, name).None? <==> forall p :: 0 <= p <= |s| ==> QuotedValueAt(s, name, p).None?
    ensures Extract(s, name).Some? ==>
              exists p :: 0 <= p <= |s| && QuotedValueAt(s, name, p) == Extract(s, name)
                          && forall q :: 0 <= q < p ==> QuotedValueAt(s, name, q).None?
  {
    ExtractFromLeftmost(s, name, 0);
  }

  /** The match of `prefix`, then `([^stop]+)`, then `suffix` at position `i`:
      the non-empty run of characters other than `stop` right after `prefix`,
      when `suffix` follows it. The run is as long as it can be; a shorter one
      cannot match either when `suffix` is empty or starts with `stop`. */
  function RunAt(s: string, prefix: string, stop: char, suffix: string, i: nat): (r: Option<string>)
    ensures r.Some? ==> r.value != [] && stop !in r.value
  {
    if !OccursAt(s, prefix, i) then None
    else
      var j := i + |prefix|;
      var e := FindFrom(s, stop, j);
      if e == j || !OccursAt(s, suffix, e) then None
      else
        assert forall k :: 0 <= k < e - j ==> s[j..e][k] == s[j + k];
        Some(s[j..e])
  }

  /** `re.search(prefix + '([^' + stop + ']+)' + suffix, s)` from position `i`
      on: the run captured by the leftmost match. */
  function SearchRun(s: string, prefix: string, stop: char, suffix: string, i: nat): (r: Option<string>)
    ensures r.Some? ==> r.value != [] && stop !in r.value
    decreases |s| + 1 - i
  {
    if i > |s| then None
    else if RunAt(s, prefix, stop, suffix, i).Some? then RunAt(s, prefix, stop, suffix, i)
    else SearchRun(s, prefix, stop, suffix, i + 1)
  }

  /** The search gives the run at the first position where the pattern matches. */
  lemma {:induction false} SearchRunFirst(s: string, prefix: string, stop: char, suffix: string, i: nat, p: nat)
    requires i <= p <= |s| && RunAt(s, prefix, stop, suffix, p).Some?
    requires forall q :: i <= q < p ==> RunAt(s, prefix, stop, suffix, q).None?
    ensures SearchRun(s, prefix, stop, suffix, i) == RunAt(s, prefix, stop, suffix, p)
    decreases p - i
  {
    if i < p {
      SearchRunFirst(s, prefix, stop, suffix, i + 1, p);
    }
  }

  /** The search finds nothing exactly when the pattern matches nowhere from `i` on. */
  lemma {:induction false} SearchRunNone(s: string, prefix: string, stop: char, suffix: string, i: nat)
    ensures SearchRun(s, prefix, stop, suffix, i).None? <==>
              forall p :: i <= p <= |s| ==> RunAt(s, prefix, stop, suffix, p).None?
    decreases |s| + 1 - i
  {
    if i <= |s| && RunAt(s, prefix, stop, suffix, i).None? {
      SearchRunNone(s, prefix, stop, suffix, i + 1);
    }
  }

  predicate IsDigit(c: char) { '0' <= c <= '9' }

  predicate AllDigits(s: string) {
    forall i :: 0 <= i < |s| ==> IsDigit(s[i])
  }

  /** Number of ASCII digits in `s` from position `i` on. */
  function DigitsFrom(s: string, i: nat): (n: nat)
    requires i <= |s|
    ensures i + n <= |s|
    ensures forall k :: i <= k < i + n ==> IsDigit(s[k])
    ensures i + n < |s| ==> !IsDigit(s[i + n])
    decreases |s| - i
  {
    if i < |s| && IsDigit(s[i]) then 1 + DigitsFrom(s, i + 1) else 0
  }

  /** The number an ASCII digit string denotes (Python's `int(s)` on such a string). */
  function DigitsValue(s: string): nat
    requires AllDigits(s)
  {
    if s == [] then 0 else DigitsValue(s[..|s| - 1]) * 10 + (s[|s| - 1] as int - '0' as int)
  }

  function DigitChar(d: nat): (c: char)
    requires d < 10
    ensures IsDigit(c) && c as int - '0' as int == d
  {
    ('0' as int + d) as char
  }

  /** Python's `str(n)` for a natural number. */
  function NatToString(n: nat): (s: string)
    ensures s != [] && AllDigits(s)
    ensures |s| > 1 ==> s[0] != '0'
  {
    if n < 10 then [DigitChar(n)] else NatToString(n / 10) + [DigitChar(n % 10)]
  }

  /** Reading back the decimal digits gives the number. */
  lemma {:induction false} NatToStringValue(n: nat)
    ensures DigitsValue(NatToString(n)) == n
  {
    if n >= 10 {
      NatToStringValue(n / 10);
      var s := NatToString(n);
      assert s[..|s| - 1] == NatToString(n / 10);
    }
  }

  /** Python's `str(i)` for any integer. */
  function IntToString(i: int): string {
    if i < 0 then "-" + NatToString(-i) else NatToString(i)
  }

  /** Python's `<` on strings: lexicographic by code point, a proper prefix first. */
  predicate Less(a: string, b: string)
    decreases |a|
  {
    if a == [] then b != []
    else b != [] && (a[0] < b[0] || (a[0] == b[0] && Less(a[1..], b[1..])))
  }

  lemma {:induction false} LessIrreflexive(a: string)
    ensures !Less(a, a)
    decreases |a|
  {
    if a != [] { LessIrreflexive(a[1..]); }
  }

  lemma {:induction false} LessTransitive(a: string, b: string, c: string)
    requires Less(a, b) && Less(b, c)
    ensures Less(a, c)
    decreases |a|
  {
    if a != [] && a[0] == b[0] && b[0] == c[0] {
      LessTransitive(a[1..], b[1..], c[1..]);
    }
  }

  lemma {:induction false} LessTotal(a: string, b: string)
    requires a != b
    ensures Less(a, b) || Less(b, a)
    decreases |a|
  {
    if a != [] && b != [] && a[0] == b[0] {
      assert a == [a[0]] + a[1..] && b == [b[0]] + b[1..];
      LessTotal(a[1..], b[1..]);
    }
  }

  /** A non-empty finite set of strings has a least element. */
  lemma {:induction false} LeastExists(s: set<string>)
    requires s != {}
    ensures exists m :: m in s && forall x :: x in s && x != m ==> Less(m, x)
    decreases s
  {
    var x :| x in s;
    if s != {x} {
      LeastExists(s - {x});
      var m :| m in s - {x} && forall y :: y in s - {x} && y != m ==> Less(m, y);
      if Less(m, x) {
        forall y | y in s && y != m ensures Less(m, y) {
          if y == x { } else { }
        }
      } else {
        LessTotal(m, x);
        forall y | y in s && y != x ensures Less(x, y) {
          if y != m { LessTransitive(x, m, y); }
        }
      }
    }
  }

  /** Strictly increasing under `Less`. */
  predicate StrictlySorted(ks: seq<string>) {
    forall i, j :: 0 <= i < j < |ks| ==> Less(ks[i], ks[j])
  }

  /** Two strictly sorted listings of the same elements start alike. */
  lemma HeadsAgree(xs: seq<string>, ys: seq<string>)
    requires StrictlySorted(xs) && StrictlySorted(ys)
    requires forall k :: k in xs <==> k in ys
    requires xs != [] && ys != []
    ensures xs[0] == ys[0]
  {
    assert ys[0] in xs && xs[0] in ys;
    var i :| 0 <= i < |xs| && xs[i] == ys[0];
    var j :| 0 <= j < |ys| && ys[j] == xs[0];
    if i != 0 && j != 0 {
      LessTransitive(xs[0], ys[0], xs[0]);
      LessIrreflexive(xs[0]);
    }
  }

  /** A finite set has one strictly sorted listing only. */
  lemma {:induction false} SortedUnique(xs: seq<string>, ys: seq<string>)
    requires StrictlySorted(xs) && StrictlySorted(ys)
    requires forall k :: k in xs <==> k in ys
    ensures xs == ys
    decreases |xs|
  {
    if xs != [] { assert xs[0] in ys; }
    if ys != [] { assert ys[0] in xs; }
    if xs != [] && ys != [] {
      HeadsAgree(xs, ys);
      var head, xt, yt := xs[0], xs[1..], ys[1..];
      LessIrreflexive(head);
      forall k | k in xt ensures k in yt {
        var i :| 1 <= i < |xs| && xs[i] == k;
        assert Less(head, k);
        assert k in ys;
        var j :| 0 <= j < |ys| && ys[j] == k;
        assert ys[j] in yt by { assert j != 0; }
      }
      forall k | k in yt ensures k in xt {
        var j :| 1 <= j < |ys| && ys[j] == k;
        assert Less(head, k);
        assert k in xs;
        var i :| 0 <= i < |xs| && xs[i] == k;
        assert xs[i] in xt by { assert i != 0; }
      }
      SortedUnique(xt, yt);
    }
  }
}
