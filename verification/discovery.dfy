// find_linn_udn.py: checking the IP argument, reading the UDN from the
// device's `ALIVE Ds <udn>` greeting, reading ProductName and ProductRoom from
// the initial EVENT of a `SUBSCRIBE Ds/Product`, and the display name.
// The socket is replaced by the sequence of chunks it delivers; an empty
// chunk is the connection closing.
module FindLinnUdn {
  import opened Text

  // ------------------------------------------------------- IP argument

  /** `part.isdigit() and 0 <= int(part) <= 255`. */
  predicate IsOctet(part: string) {
    part != [] && AllDigits(part) && DigitsValue(part) <= 255
  }

  /** The check `main` makes on its argument: four `.`-separated parts, each an octet. */
  predicate ValidIp(ip: string) {
    var parts := Split(ip, '.');
    |parts| == 4 && forall k :: 0 <= k < 4 ==> IsOctet(parts[k])
  }

  /** `a.b.c.d` written in decimal. */
  function DottedQuad(a: nat, b: nat, c: nat, d: nat): string {
    Join([NatToString(a), NatToString(b), NatToString(c), NatToString(d)], '.')
  }

  /** A number written in decimal is an octet exactly when it is at most 255. */
  lemma OctetValue(n: nat)
    ensures IsOctet(NatToString(n)) <==> n <= 255
  {
    NatToStringValue(n);
  }

  /** Four numbers written as a dotted quad pass the check exactly when each is at most 255. */
  lemma DottedQuadValid(a: nat, b: nat, c: nat, d: nat)
    ensures ValidIp(DottedQuad(a, b, c, d)) <==> a <= 255 && b <= 255 && c <= 255 && d <= 255
  {
    var parts := [NatToString(a), NatToString(b), NatToString(c), NatToString(d)];
    forall k | 0 <= k < 4 ensures '.' !in parts[k] {
      assert AllDigits(parts[k]);
    }
    SplitJoin(parts, '.');
    assert Split(DottedQuad(a, b, c, d), '.') == parts;
    OctetValue(a);
    OctetValue(b);
    OctetValue(c);
    OctetValue(d);
    assert ValidIp(DottedQuad(a, b, c, d)) <==> IsOctet(parts[0]) && IsOctet(parts[1]) && IsOctet(parts[2]) && IsOctet(parts[3]);
  }

  /** An address that passes the check is four dot-free octets joined by dots. */
  lemma ValidIpShape(ip: string)
    requires ValidIp(ip)
    ensures var parts := Split(ip, '.');
            ip == parts[0] + "." + parts[1] + "." + parts[2] + "." + parts[3]
            && forall k :: 0 <= k < 4 ==> IsOctet(parts[k]) && '.' !in parts[k]
  {
    var parts := Split(ip, '.');
    JoinSplit(ip, '.');
    JoinFour(parts);
  }

  /** Four pieces joined by dots. */
  lemma JoinFour(parts: seq<string>)
    requires |parts| == 4
    ensures Join(parts, '.') == parts[0] + "." + parts[1] + "." + parts[2] + "." + parts[3]
  {
    var t2, t3 := parts[1..][1..], parts[1..][1..][1..];
    assert t3 == [parts[3]];
    assert Join(t3, '.') == parts[3];
    assert t2[0] == parts[2] && t2[1..] == t3;
    assert Join(t2, '.') == parts[2] + "." + parts[3];
    assert Join(parts[1..], '.') == parts[1] + "." + (parts[2] + "." + parts[3]);
  }

  // ---------------------------------------------------------- ALIVE Ds

  /** The characters of `[A-Fa-f0-9\-]`. */
  predicate IsUdnChar(c: char) {
    IsDigit(c) || 'a' <= c <= 'f' || 'A' <= c <= 'F' || c == '-'
  }

  predicate IsUdn(s: string) {
    s != [] && forall k :: 0 <= k < |s| ==> IsUdnChar(s[k])
  }

  /** `re.search(r'^ALIVE\s+Ds\s+([A-Fa-f0-9\-]+)$', line.strip())`: the
      stripped line is `ALIVE`, blanks, `Ds`, blanks and then nothing but a
      non-empty run of hexadecimal digits and dashes, which is the UDN. */
  function AliveUdn(line: string): (r: Option<string>)
    ensures r.Some? ==> IsUdn(r.value) && StartsWith(Strip(line), "ALIVE") && EndsWith(Strip(line), r.value)
  {
    var s := Strip(line);
    if !StartsWith(s, "ALIVE") then None
    else
      var i := 5 + SpacesFrom(s, 5);
      if i == 5 || !OccursAt(s, "Ds", i) then None
      else
        var j := i + 2 + SpacesFrom(s, i + 2);
        if j == i + 2 || !IsUdn(s[j..]) then None
        else
          assert s[|s| - |s[j..]|..] == s[j..];
          Some(s[j..])
  }

  /** The greeting a device sends is read back as its UDN. */
  lemma AliveRoundTrip(udn: string)
    requires IsUdn(udn)
    ensures AliveUdn("ALIVE Ds " + udn) == Some(udn)
  {
    var s := "ALIVE Ds " + udn;
    assert !IsSpace(s[0]) && !IsSpace(s[|s| - 1]);
    StripNoop(s);
    assert SpacesFrom(s, 5) == 1 by {
      assert IsSpace(s[5]) && !IsSpace(s[6]);
    }
    assert SpacesFrom(s, 8) == 1 by {
      assert IsSpace(s[8]) && (9 < |s| ==> !IsSpace(s[9]));
    }
    assert s[9..] == udn;
  }

  /** The UDN of the last line that matches, as the line loop leaves it. */
  function LastAlive(lines: seq<string>): Option<string> {
    LastMatch(lines, AliveUdn)
  }

  /** The value of the last line `f` matches, `None` when it matches none. */
  function LastMatch(lines: seq<string>, f: string -> Option<string>): Option<string> {
    if lines == [] then None
    else
      var last := f(lines[|lines| - 1]);
      if last.Some? then last else LastMatch(lines[..|lines| - 1], f)
  }

  /** The scan ends with the value of some matching line, and with none
      exactly when no line matches. */
  lemma {:induction false} LastMatchFound(lines: seq<string>, f: string -> Option<string>)
    ensures LastMatch(lines, f).Some? ==> exists i :: 0 <= i < |lines| && f(lines[i]) == LastMatch(lines, f)
    ensures LastMatch(lines, f).None? <==> forall i :: 0 <= i < |lines| ==> f(lines[i]).None?
    decreases |lines|
  {
    if lines != [] && f(lines[|lines| - 1]).None? {
      var init := lines[..|lines| - 1];
      LastMatchFound(init, f);
      assert forall i :: 0 <= i < |init| ==> init[i] == lines[i];
    }
  }

  /** One more line: its value if it matches, else the value so far. */
  lemma LastMatchStep(lines: seq<string>, f: string -> Option<string>, j: nat)
    requires j < |lines|
    ensures LastMatch(lines[..j + 1], f) == if f(lines[j]).Some? then f(lines[j]) else LastMatch(lines[..j], f)
  {
    assert lines[..j + 1][..j] == lines[..j];
  }

  /** A later matching line replaces the value of an earlier one. */
  lemma {:induction false} LastMatchWins(lines: seq<string>, f: string -> Option<string>, i: nat)
    requires i < |lines| && f(lines[i]).Some?
    requires forall j :: i < j < |lines| ==> f(lines[j]).None?
    ensures LastMatch(lines, f) == f(lines[i])
    decreases |lines|
  {
    if i < |lines| - 1 {
      var init := lines[..|lines| - 1];
      assert init[i] == lines[i];
      assert forall j :: i < j < |init| ==> init[j] == lines[j];
      LastMatchWins(init, f, i);
    }
  }

  /** The ALIVE loop ends with the UDN of the last ALIVE line, and with none
      exactly when there is no ALIVE line. */
  lemma LastAliveWins(lines: seq<string>)
    ensures forall i :: 0 <= i < |lines| && AliveUdn(lines[i]).Some?
              && (forall j :: i < j < |lines| ==> AliveUdn(lines[j]).None?)
              ==> LastAlive(lines) == AliveUdn(lines[i])
    ensures LastAlive(lines).None? <==> forall i :: 0 <= i < |lines| ==> AliveUdn(lines[i]).None?
  {
    LastMatchFound(lines, AliveUdn);
    forall i | 0 <= i < |lines| && AliveUdn(lines[i]).Some?
              && (forall j :: i < j < |lines| ==> AliveUdn(lines[j]).None?)
      ensures LastAlive(lines) == AliveUdn(lines[i])
    {
      LastMatchWins(lines, AliveUdn, i);
    }
  }

  /** The UDN the ALIVE loop holds after reading the first `n` chunks. */
  function AliveAfter(chunks: seq<string>, n: nat): Option<string>
    requires n <= |chunks|
  {
    LastAlive(SplitLines(Concat(chunks[..n])))
  }

  /** No chunk before the `n`-th closed the connection or completed a UDN. */
  predicate NoUdnBefore(chunks: seq<string>, n: nat)
    requires n <= |chunks|
  {
    forall k :: 0 <= k < n ==> chunks[k] != [] && AliveAfter(chunks, k).None?
  }

  lemma NoUdnNext(chunks: seq<string>, n: nat)
    requires n < |chunks| && NoUdnBefore(chunks, n)
    requires chunks[n] != [] && AliveAfter(chunks, n).None?
    ensures NoUdnBefore(chunks, n + 1)
  {
  }

  /** The ALIVE loop of `discover_linn_udn`: after each chunk every line of the
      buffer read so far is matched, the last match winning; the loop stops as
      soon as a UDN is known or the connection closes. `used` counts the
      chunks taken. */
  method ReadAlive(chunks: seq<string>) returns (udn: Option<string>, used: nat)
    ensures used <= |chunks|
    ensures udn == AliveAfter(chunks, used)
    ensures NoUdnBefore(chunks, used)
    ensures udn.None? ==> used == |chunks| || chunks[used] == []
  {
    var buffer := "";
    udn := None;
    used := 0;
    while used < |chunks|
      invariant used <= |chunks|
      invariant buffer == Concat(chunks[..used])
      invariant udn.None? && udn == AliveAfter(chunks, used)
      invariant NoUdnBefore(chunks, used)
    {
      var chunk := chunks[used];
      if chunk == [] {
        return;
      }
      ConcatStep(chunks, used);
      buffer := buffer + chunk;
      var found := ScanAlive(SplitLines(buffer));
      assert found == AliveAfter(chunks, used + 1);
      NoUdnNext(chunks, used);
      used := used + 1;
      if found.Some? {
        udn := found;
        return;
      }
    }
  }

  /** The line loop inside the ALIVE loop: each matching line replaces the UDN found so far. */
  method ScanAlive(lines: seq<string>) returns (found: Option<string>)
    ensures found == LastAlive(lines)
  {
    found := None;
    for j := 0 to |lines|
      invariant found == LastAlive(lines[..j])
    {
      LastMatchStep(lines, AliveUdn, j);
      var m := AliveUdn(lines[j]);
      if m.Some? {
        found := m;
      }
    }
    assert lines[..|lines|] == lines;
  }

  // ------------------------------------------------------- Ds/Product

  /** What the subscribe loop has found so far. */
  datatype Product = Product(room: Option<string>, name: Option<string>)

  /** The loop stops once either value is non-empty. */
  predicate Found(p: Product) {
    Present(p.room) || Present(p.name)
  }

  /** One line of the subscribe response: on a stripped line starting
      `EVENT `, each of ProductName and ProductRoom found anywhere in the
      line replaces the value held; any other line changes nothing. */
  function ScanLine(line: string, p: Product): (r: Product)
    ensures !StartsWith(Strip(line), "EVENT ") ==> r == p
    ensures StartsWith(Strip(line), "EVENT ") ==>
              r.name == (if Extract(Strip(line), "ProductName").Some? then Extract(Strip(line), "ProductName") else p.name)
              && r.room == (if Extract(Strip(line), "ProductRoom").Some? then Extract(Strip(line), "ProductRoom") else p.room)
  {
    var s := Strip(line);
    if !StartsWith(s, "EVENT ") then p
    else
      var name := Extract(s, "ProductName");
      var room := Extract(s, "ProductRoom");
      Product(if room.Some? then room else p.room, if name.Some? then name else p.name)
  }

  /** On an EVENT line the name read is the capture of the leftmost
      `ProductName\s+"..."` in the line, wherever ProductRoom stands. */
  lemma ScanLineLeftmost(line: string, p: Product)
    requires StartsWith(Strip(line), "EVENT ")
    ensures var s := Strip(line);
            ScanLine(line, p).name.Some? && ScanLine(line, p).name != p.name ==>
              exists q :: 0 <= q <= |s| && QuotedValueAt(s, "ProductName", q) == ScanLine(line, p).name
                          && forall q' :: 0 <= q' < q ==> QuotedValueAt(s, "ProductName", q').None?
  {
    ExtractIsLeftmost(Strip(line), "ProductName");
  }

  /** The line loop: lines in order, stopping after the first line that
      leaves a value found. */
  function ScanLines(lines: seq<string>, p: Product): Product
    decreases |lines|
  {
    if lines == [] then p
    else
      var q := ScanLine(lines[0], p);
      if Found(q) then q else ScanLines(lines[1..], q)
  }

  /** Lines that do not start with `EVENT ` leave the values as they were. */
  lemma {:induction false} NoEventLines(lines: seq<string>, p: Product)
    requires forall k :: 0 <= k < |lines| ==> !StartsWith(Strip(lines[k]), "EVENT ")
    ensures ScanLines(lines, p) == p
    decreases |lines|
  {
    if lines != [] && !Found(p) {
      NoEventLines(lines[1..], p);
    }
  }

  /** What the subscribe loop holds after the first `n` chunks: the values
      persist from one pass over the buffer to the next. */
  function ProductAfter(chunks: seq<string>, n: nat): Product
    requires n <= |chunks|
  {
    if n == 0 then Product(None, None)
    else ScanLines(SplitLines(Concat(chunks[..n])), ProductAfter(chunks, n - 1))
  }

  /** No chunk before the `n`-th closed the connection or completed a name or room. */
  predicate NothingBefore(chunks: seq<string>, n: nat)
    requires n <= |chunks|
  {
    forall k :: 0 <= k < n ==> chunks[k] != [] && !Found(ProductAfter(chunks, k))
  }

  lemma NothingNext(chunks: seq<string>, n: nat)
    requires n < |chunks| && NothingBefore(chunks, n)
    requires chunks[n] != [] && !Found(ProductAfter(chunks, n))
    ensures NothingBefore(chunks, n + 1)
  {
  }

  /** The subscribe loop of `discover_linn_udn`: after each chunk the lines
      of the buffer are scanned again; the loop stops once a non-empty name
      or room is known or the connection closes. */
  method ReadProduct(chunks: seq<string>) returns (product: Product, used: nat)
    ensures used <= |chunks|
    ensures product == ProductAfter(chunks, used)
    ensures NothingBefore(chunks, used)
    ensures !Found(product) ==> used == |chunks| || chunks[used] == []
  {
    var buffer := "";
    product := Product(None, None);
    used := 0;
    while used < |chunks|
      invariant used <= |chunks|
      invariant buffer == Concat(chunks[..used])
      invariant product == ProductAfter(chunks, used) && !Found(product)
      invariant NothingBefore(chunks, used)
    {
      var chunk := chunks[used];
      if chunk == [] {
        return;
      }
      ConcatStep(chunks, used);
      buffer := buffer + chunk;
      product := ScanProduct(SplitLines(buffer), product);
      assert product == ProductAfter(chunks, used + 1);
      NothingNext(chunks, used);
      used := used + 1;
      if Found(product) {
        return;
      }
    }
  }

  /** The line loop inside the subscribe loop. */
  method ScanProduct(lines: seq<string>, start: Product) returns (product: Product)
    requires !Found(start)
    ensures product == ScanLines(lines, start)
  {
    product := start;
    var j := 0;
    while j < |lines|
      invariant j <= |lines|
      invariant ScanLines(lines[j..], product) == ScanLines(lines, start)
      invariant !Found(product)
    {
      product := ScanLine(lines[j], product);
      if Found(product) {
        return;
      }
      assert lines[j..][1..] == lines[j + 1..];
      j := j + 1;
    }
  }

  // ----------------------------------------------------------- display

  /** The display name: `room: name` when both are non-empty, otherwise the
      one that is, and none when neither is. */
  function Display(room: Option<string>, name: Option<string>): (r: Option<string>)
    ensures r.Some? <==> Present(room) || Present(name)
    ensures Present(name) ==> EndsWith(r.value, name.value)
    ensures Present(room) ==> StartsWith(r.value, room.value)
    ensures Present(room) && Present(name) ==> r == Some(room.value + ": " + name.value)
    ensures !Present(room) && Present(name) ==> r == name
    ensures Present(room) && !Present(name) ==> r == room
  {
    if Present(room) && Present(name) then
      var d := room.value + ": " + name.value;
      assert d[|d| - |name.value|..] == name.value;
      Some(d)
    else if Present(name) then name
    else if Present(room) then room
    else None
  }
}
