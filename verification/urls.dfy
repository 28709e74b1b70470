/** The parts of Python's `urllib.parse` that the tools rely on: `urlparse`
    (to read the scheme, path and query of a Sender URI), `urlencode` (to build
    the query of an `ohSongcast://` URI) and `parse_qs` (to read one back). */
module Urls {
  import opened Text

  /** Characters `urlsplit` strips from the front of a URL: C0 controls and space. */
  predicate IsC0OrSpace(c: char) { c <= ' ' }

  /** Characters `urlsplit` deletes wherever they occur: tab, carriage return, line feed. */
  predicate IsUnsafe(c: char) { c == '\t' || c == '\r' || c == '\n' }

  predicate IsAsciiAlpha(c: char) { 'a' <= c <= 'z' || 'A' <= c <= 'Z' }

  /** The characters a scheme may hold. */
  predicate IsSchemeChar(c: char) { IsAsciiAlpha(c) || IsDigit(c) || c == '+' || c == '-' || c == '.' }

  /** The characters that end a network location. */
  predicate IsNetlocEnd(c: char) { c == '/' || c == '?' || c == '#' }

  /** A scheme: scheme characters after an ASCII letter. */
  predicate IsScheme(s: string) {
    |s| > 0 && IsAsciiAlpha(s[0]) && forall k :: 0 <= k < |s| ==> IsSchemeChar(s[k])
  }

  /** No upper-case ASCII letter. */
  predicate IsLower(s: string) {
    forall k :: 0 <= k < |s| ==> !('A' <= s[k] <= 'Z')
  }

  /** Number of leading C0 controls and spaces. */
  function LeadingBlank(s: string): (n: nat)
    ensures n <= |s| && forall k :: 0 <= k < n ==> IsC0OrSpace(s[k])
    ensures n < |s| ==> !IsC0OrSpace(s[n])
  {
    if s != [] && IsC0OrSpace(s[0]) then 1 + LeadingBlank(s[1..]) else 0
  }

  /** `s` with every tab, carriage return and line feed deleted. */
  function RemoveUnsafe(s: string): (r: string)
    ensures forall k :: 0 <= k < |r| ==> !IsUnsafe(r[k])
    ensures (forall k :: 0 <= k < |s| ==> !IsUnsafe(s[k])) ==> r == s
  {
    if s == [] then []
    else if IsUnsafe(s[0]) then RemoveUnsafe(s[1..])
    else [s[0]] + RemoveUnsafe(s[1..])
  }

  /** The URL as `urlsplit` reads it: leading blanks stripped, then tabs and line breaks deleted. */
  function Clean(url: string): string {
    RemoveUnsafe(url[LeadingBlank(url)..])
  }

  /** The six components `urlparse` returns. */
  datatype Parsed = Parsed(scheme: string, netloc: string, path: string, params: string,
                           query: string, fragment: string)

  /** The scheme and the rest: the text before the first `:`, lower-cased, when
      it starts with an ASCII letter and holds only scheme characters;
      otherwise no scheme and the whole text. */
  function SplitScheme(url: string): (r: (string, string))
    ensures r.0 == [] || (IsScheme(r.0) && IsLower(r.0))
  {
    if ':' !in url then ("", url)
    else
      var i := IndexOf(url, ':');
      if i > 0 && IsAsciiAlpha(url[0]) && forall k :: 0 <= k < i ==> IsSchemeChar(url[k]) then
        var s := Lower(url[..i]);
        assert forall k :: 0 <= k < i ==> s[k] == LowerChar(url[k]);
        (s, url[i + 1..])
      else ("", url)
  }

  /** The end of a network location that starts at `i`: the first `/`, `?` or `#`, or the end. */
  function NetlocEndFrom(s: string, i: nat): (e: nat)
    requires i <= |s|
    ensures i <= e <= |s|
    ensures forall k :: i <= k < e ==> !IsNetlocEnd(s[k])
    ensures e < |s| ==> IsNetlocEnd(s[e])
    decreases |s| - i
  {
    if i == |s| || IsNetlocEnd(s[i]) then i else NetlocEndFrom(s, i + 1)
  }

  /** The schemes for which `urlparse` splits `;params` off the path. */
  const UsesParams: set<string> :=
    {"", "ftp", "hdl", "prospero", "http", "imap", "https", "shttp", "rtsp", "rtsps", "rtspu",
     "sip", "sips", "mms", "sftp", "tel"}

  /** Position of the last `c` in `s`. */
  function LastIndexOf(s: string, c: char): (i: nat)
    requires c in s
    ensures i < |s| && s[i] == c
    ensures forall k :: i < k < |s| ==> s[k] != c
  {
    if s[|s| - 1] == c then |s| - 1
    else
      assert c in s[..|s| - 1] by {
        var j :| 0 <= j < |s| && s[j] == c;
        assert s[..|s| - 1][j] == c;
      }
      LastIndexOf(s[..|s| - 1], c)
  }

  /** `_splitparams`: the path and its parameters, cut at the first `;` after
      the last `/` (or at the first `;` when there is no `/`). */
  function SplitParams(path: string): (r: (string, string))
    requires ';' in path
    ensures r.0 <= path
  {
    if '/' in path then
      var e := FindFrom(path, ';', LastIndexOf(path, '/'));
      if e == |path| then (path, "") else (path[..e], path[e + 1..])
    else
      var i := IndexOf(path, ';');
      (path[..i], path[i + 1..])
  }

  /** `_splitnetloc` after a leading `//`: the network location and what follows it. */
  function SplitNetloc(rest: string): (r: (string, string))
    ensures forall k :: 0 <= k < |r.0| ==> !IsNetlocEnd(r.0[k])
    ensures StartsWith(rest, "//") ==> rest == "//" + r.0 + r.1
    ensures !StartsWith(rest, "//") ==> r == ("", rest)
  {
    if StartsWith(rest, "//") then
      var e := NetlocEndFrom(rest, 2);
      assert rest == rest[..2] + rest[2..e] + rest[e..];
      assert rest[..2] == "//";
      (rest[2..e], rest[e..])
    else ("", rest)
  }

  /** `s.split(d, 1)` when `d` occurs, and `(s, "")` otherwise. */
  function CutAt(s: string, d: char): (r: (string, string))
    ensures d !in r.0 && r.0 <= s
    ensures d in s ==> s == r.0 + [d] + r.1
    ensures d !in s ==> r == (s, "")
  {
    if d in s then SplitOnce(s, d) else (s, "")
  }

  /** `urlparse(url)`, or `None` where it raises `ValueError` because the
      network location holds one square bracket without the other. */
  function UrlParse(url: string): (r: Option<Parsed>)
    ensures r.Some? ==> r.value.scheme == [] || (IsScheme(r.value.scheme) && IsLower(r.value.scheme))
  {
    var sr := SplitScheme(Clean(url));
    var nr := SplitNetloc(sr.1);
    if ('[' in nr.0) != (']' in nr.0) then None
    else
      var fr := CutAt(nr.1, '#');
      var pq := CutAt(fr.0, '?');
      var pp := if sr.0 in UsesParams && ';' in pq.0 then SplitParams(pq.0) else (pq.0, "");
      Some(Parsed(sr.0, nr.0, pp.0, pp.1, pq.1, fr.1))
  }
  /** A URL that starts with a letter and holds no tab or line break is read as it is. */
  lemma CleanNoop(url: string)
    requires |url| > 0 && IsAsciiAlpha(url[0])
    requires forall k :: 0 <= k < |url| ==> !IsUnsafe(url[k])
    ensures Clean(url) == url
  {
    assert LeadingBlank(url) == 0;
    assert url[0..] == url;
  }

  /** A scheme followed by `:` is split off and lower-cased. */
  lemma SplitSchemeAt(scheme: string, rest: string)
    requires IsScheme(scheme)
    ensures SplitScheme(scheme + ":" + rest) == (Lower(scheme), rest)
  {
    var url := scheme + ":" + rest;
    assert url == scheme + [':'] + rest;
    assert forall k :: 0 <= k < |scheme| ==> url[k] == scheme[k] && url[k] != ':';
    FirstSeparator(scheme, ':', rest, IndexOf(url, ':'));
    var i := IndexOf(url, ':');
    assert url[..i] == scheme;
    assert url[i + 1..] == rest;
  }

  /** After `//`, the network location runs up to the first `/`, `?` or `#`. */
  lemma SplitNetlocAt(netloc: string, after: string)
    requires forall k :: 0 <= k < |netloc| ==> !IsNetlocEnd(netloc[k])
    requires |after| == 0 || IsNetlocEnd(after[0])
    ensures SplitNetloc("//" + netloc + after) == (netloc, after)
  {
    var rest := "//" + netloc + after;
    assert StartsWith(rest, "//") by {
      assert rest[0] == '/' && rest[1] == '/';
    }
    assert forall k :: 2 <= k < 2 + |netloc| ==> rest[k] == netloc[k - 2];
    assert 2 + |netloc| < |rest| ==> rest[2 + |netloc|] == after[0];
    assert NetlocEndFrom(rest, 2) == 2 + |netloc|;
    assert rest[2..2 + |netloc|] == netloc;
    assert rest[2 + |netloc|..] == after;
  }

  /** `CutAt` at the separator that follows a separator-free prefix. */
  lemma CutAtFirst(first: string, d: char, more: string)
    requires d !in first
    ensures CutAt(first + [d] + more, d) == (first, more)
  {
    assert (first + [d] + more)[|first|] == d;
    SplitOnceAt(first, d, more);
  }

  /** No tab, carriage return or line feed. */
  predicate NoUnsafe(s: string) {
    forall k :: 0 <= k < |s| ==> !IsUnsafe(s[k])
  }

  lemma NoUnsafeConcat(a: string, b: string)
    requires NoUnsafe(a) && NoUnsafe(b)
    ensures NoUnsafe(a + b)
  {
    assert forall k :: |a| <= k < |a + b| ==> (a + b)[k] == b[k - |a|];
  }

  /** `urlparse` put together from its steps. */
  lemma UrlParseFrom(url: string, scheme: string, rest: string, netloc: string, after: string,
                     path: string, query: string)
    requires SplitScheme(Clean(url)) == (scheme, rest) && SplitNetloc(rest) == (netloc, after)
    requires '[' !in netloc && ']' !in netloc
    requires CutAt(after, '#') == (after, "") && CutAt(after, '?') == (path, query)
    requires scheme in UsesParams ==> ';' !in path
    ensures UrlParse(url) == Some(Parsed(scheme, netloc, path, "", query, ""))
  {
  }

  /** `urlunparse` of a URL with a network location, no parameters and no
      fragment; `None` for the query leaves out the `?`. */
  function Unparse(scheme: string, netloc: string, path: string, query: Option<string>): string {
    scheme + ":" + ("//" + netloc + (path + QueryTail(query)))
  }

  /** The `?query` ending of a URL, empty when there is no query. */
  function QueryTail(query: Option<string>): string {
    if query.Some? then "?" + query.value else ""
  }

  /** A path followed by `?query`: cut at the `?`, it gives the path and the query. */
  lemma PathAndQuery(path: string, q: string)
    requires |path| == 0 || path[0] == '/'
    requires forall k :: 0 <= k < |path| ==> path[k] != '?' && path[k] != '#' && !IsUnsafe(path[k])
    requires forall k :: 0 <= k < |q| ==> q[k] != '#' && !IsUnsafe(q[k])
    ensures var after := path + ("?" + q);
            NoUnsafe(after) && '#' !in after && IsNetlocEnd(after[0]) && CutAt(after, '?') == (path, q)
  {
    var after := path + ("?" + q);
    assert NoUnsafe(path) && NoUnsafe("?") && NoUnsafe(q);
    NoUnsafeConcat("?", q);
    NoUnsafeConcat(path, "?" + q);
    assert '#' !in path && '#' !in q;
    assert after[|path|] == '?';
    Associative(path, ['?'], q);
    CutAtFirst(path, '?', q);
  }

  /** The path and query part of a URL: cut at the `?`, it gives the path and the query. */
  lemma AfterNetloc(path: string, query: Option<string>)
    requires |path| == 0 || path[0] == '/'
    requires forall k :: 0 <= k < |path| ==> path[k] != '?' && path[k] != '#' && !IsUnsafe(path[k])
    requires query.Some? ==> forall k :: 0 <= k < |query.value| ==> query.value[k] != '#' && !IsUnsafe(query.value[k])
    ensures var after := path + QueryTail(query);
            NoUnsafe(after) && '#' !in after && (|after| == 0 || IsNetlocEnd(after[0]))
            && CutAt(after, '?') == (path, if query.Some? then query.value else "")
  {
    if query.Some? {
      PathAndQuery(path, query.value);
    } else {
      assert path + QueryTail(query) == path;
    }
  }

  /** Scheme and network location are read off the front of the URL. */
  lemma BeforePath(scheme: string, netloc: string, after: string)
    requires IsScheme(scheme)
    requires forall k :: 0 <= k < |netloc| ==> !IsNetlocEnd(netloc[k]) && !IsUnsafe(netloc[k])
    requires NoUnsafe(after) && (|after| == 0 || IsNetlocEnd(after[0]))
    ensures SplitScheme(Clean(scheme + ":" + ("//" + netloc + after))) == (Lower(scheme), "//" + netloc + after)
    ensures SplitNetloc("//" + netloc + after) == (netloc, after)
  {
    var rest := "//" + netloc + after;
    var url := scheme + ":" + rest;
    assert NoUnsafe(url) && url[0] == scheme[0] by {
      assert NoUnsafe(scheme) && NoUnsafe(netloc) && NoUnsafe("//");
      NoUnsafeConcat("//", netloc);
      NoUnsafeConcat("//" + netloc, after);
      NoUnsafeConcat(scheme, ":");
      NoUnsafeConcat(scheme + ":", rest);
    }
    CleanNoop(url);
    SplitSchemeAt(scheme, rest);
    SplitNetlocAt(netloc, after);
  }

  /** What `urlparse` makes of `scheme://netloc/path?query` when no part holds
      a character that ends an earlier part: the same parts back, so that
      `urlparse` undoes `urlunparse` on such URLs. */
  lemma UrlParseRoundTrip(scheme: string, netloc: string, path: string, query: Option<string>)
    requires IsScheme(scheme)
    requires forall k :: 0 <= k < |netloc| ==>
               !IsNetlocEnd(netloc[k]) && !IsUnsafe(netloc[k]) && netloc[k] != '[' && netloc[k] != ']'
    requires |path| == 0 || path[0] == '/'
    requires forall k :: 0 <= k < |path| ==> path[k] != '?' && path[k] != '#' && !IsUnsafe(path[k])
    requires Lower(scheme) in UsesParams ==> ';' !in path
    requires query.Some? ==> forall k :: 0 <= k < |query.value| ==> query.value[k] != '#' && !IsUnsafe(query.value[k])
    ensures UrlParse(Unparse(scheme, netloc, path, query))
         == Some(Parsed(Lower(scheme), netloc, path, "", if query.Some? then query.value else "", ""))
  {
    var after := path + QueryTail(query);
    AfterNetloc(path, query);
    BeforePath(scheme, netloc, after);
    UrlParseFrom(Unparse(scheme, netloc, path, query), Lower(scheme), "//" + netloc + after, netloc, after, path,
                 if query.Some? then query.value else "");
  }
  /** Characters `quote` never escapes: ASCII letters, digits and `_.-~`. */
  predicate IsAlwaysSafe(c: char) {
    IsAsciiAlpha(c) || IsDigit(c) || c == '_' || c == '.' || c == '-' || c == '~'
  }

  /** Characters `quote_plus` output consists of. */
  predicate IsQuoted(c: char) { IsAlwaysSafe(c) || c == '+' || c == '%' }

  /** The UTF-8 encoding of a character, byte by byte. */
  function Utf8(c: char): (bs: seq<nat>)
    ensures 1 <= |bs| <= 4 && forall k :: 0 <= k < |bs| ==> bs[k] < 256
    ensures |bs| == 1 <==> c as int < 0x80
  {
    var n := c as int;
    if n < 0x80 then [n]
    else if n < 0x800 then [0xC0 + n / 0x40, 0x80 + n % 0x40]
    else if n < 0x1_0000 then [0xE0 + n / 0x1000, 0x80 + (n / 0x40) % 0x40, 0x80 + n % 0x40]
    else [0xF0 + n / 0x4_0000, 0x80 + (n / 0x1000) % 0x40, 0x80 + (n / 0x40) % 0x40, 0x80 + n % 0x40]
  }

  /** An upper-case hexadecimal digit. */
  function HexDigit(d: nat): (c: char)
    requires d < 16
    ensures IsAlwaysSafe(c)
  {
    if d < 10 then DigitChar(d) else ('A' as int + d - 10) as char
  }

  /** `%XX` for each byte. */
  function Escape(bs: seq<nat>): (r: string)
    requires forall k :: 0 <= k < |bs| ==> bs[k] < 256
    ensures |r| == 3 * |bs| && forall k :: 0 <= k < |r| ==> IsQuoted(r[k])
  {
    if bs == [] then ""
    else ['%', HexDigit(bs[0] / 16), HexDigit(bs[0] % 16)] + Escape(bs[1..])
  }

  /** `quote_plus` of one character: kept when always safe, `+` for a space, otherwise escaped. */
  function QuoteChar(c: char): (r: string)
    ensures |r| > 0 && forall k :: 0 <= k < |r| ==> IsQuoted(r[k])
  {
    if IsAlwaysSafe(c) then [c] else if c == ' ' then "+" else Escape(Utf8(c))
  }

  /** `quote_plus(s)` with nothing extra marked safe, as `urlencode` calls it. */
  function QuotePlus(s: string): (r: string)
    ensures |r| >= |s|
    ensures forall k :: 0 <= k < |r| ==> IsQuoted(r[k])
  {
    if s == [] then "" else QuoteChar(s[0]) + QuotePlus(s[1..])
  }

  /** One `key=value` field of `urlencode`. */
  function Field(p: (string, string)): string {
    QuotePlus(p.0) + "=" + QuotePlus(p.1)
  }

  /** The fields of `urlencode`, in order. */
  function Fields(params: seq<(string, string)>): (r: seq<string>)
    ensures |r| == |params| && forall k :: 0 <= k < |r| ==> r[k] == Field(params[k])
  {
    if params == [] then [] else [Field(params[0])] + Fields(params[1..])
  }

  /** `urlencode(params)` over an insertion-ordered dictionary. */
  function Urlencode(params: seq<(string, string)>): string {
    Join(Fields(params), '&')
  }

  /** Text made of `quote_plus` output, `=` and `&`, as `urlencode` writes it. */
  predicate IsQueryText(s: string) {
    forall k :: 0 <= k < |s| ==> IsQuoted(s[k]) || s[k] == '=' || s[k] == '&'
  }

  /** Query text holds neither a `#` nor a character `urlparse` strips. */
  lemma QueryTextSafe(s: string)
    requires IsQueryText(s)
    ensures forall k :: 0 <= k < |s| ==> s[k] != '#' && !IsUnsafe(s[k])
  {
    forall k | 0 <= k < |s| ensures s[k] != '#' && !IsUnsafe(s[k]) {
      assert IsQuoted(s[k]) || s[k] == '=' || s[k] == '&';
    }
  }

  /** `urlencode` writes only escaped names and values, `=` and `&`. */
  lemma {:induction false} UrlencodeText(params: seq<(string, string)>)
    ensures IsQueryText(Urlencode(params))
    decreases |params|
  {
    var fields := Fields(params);
    if |params| >= 1 {
      var f := Field(params[0]);
      assert IsQueryText(f) by {
        assert f == QuotePlus(params[0].0) + "=" + QuotePlus(params[0].1);
      }
      if |params| >= 2 {
        UrlencodeText(params[1..]);
        assert fields[1..] == Fields(params[1..]);
        assert Urlencode(params) == f + ['&'] + Urlencode(params[1..]);
      }
    }
  }

  /** `s.replace('+', ' ')`. */
  function Plus(s: string): (r: string)
    ensures |r| == |s|
  {
    if s == [] then "" else [if s[0] == '+' then ' ' else s[0]] + Plus(s[1..])
  }

  /** The name and value one `&`-separated piece of a query contributes to
      `parse_qsl`: none without `=` or with an empty value. */
  function Pair(piece: string): Option<(string, string)> {
    if '=' !in piece then None
    else
      var nv := SplitOnce(piece, '=');
      if |nv.1| == 0 then None else Some((Plus(nv.0), Plus(nv.1)))
  }

  /** The pairs of the pieces, in order. */
  function Pairs(pieces: seq<string>): seq<(string, string)> {
    if pieces == [] then []
    else
      var rest := Pairs(pieces[1..]);
      match Pair(pieces[0]) case Some(p) => [p] + rest case None => rest
  }

  /** `parse_qsl(query)`: the names and values of the query, in order, blank
      values dropped, `+` read as a space; `%XX` escapes are kept as they are. */
  function ParseQsl(query: string): seq<(string, string)> {
    Pairs(Split(query, '&'))
  }

  /** Text that `quote_plus` writes with no escapes: always-safe characters and spaces. */
  predicate Plain(s: string) {
    forall k :: 0 <= k < |s| ==> IsAlwaysSafe(s[k]) || s[k] == ' '
  }

  /** Reading back plain text that `quote_plus` wrote gives the text. */
  lemma {:induction false} PlusQuote(s: string)
    requires Plain(s)
    ensures Plus(QuotePlus(s)) == s
  {
    if s != [] {
      PlusQuote(s[1..]);
      var h := QuoteChar(s[0]);
      assert |h| == 1 && Plus(h) == [s[0]];
      PlusAppend(h, QuotePlus(s[1..]));
    }
  }

  lemma {:induction false} PlusAppend(a: string, b: string)
    ensures Plus(a + b) == Plus(a) + Plus(b)
  {
    if a == [] {
      assert a + b == b;
    } else {
      PlusAppend(a[1..], b);
      assert (a + b)[1..] == a[1..] + b;
      assert (a + b)[0] == a[0];
    }
  }

  /** A field written by `urlencode` is read back as the pair it was written from. */
  lemma PairField(p: (string, string))
    requires Plain(p.0) && Plain(p.1) && |p.1| > 0
    ensures Pair(Field(p)) == Some(p)
  {
    var k := QuotePlus(p.0);
    var v := QuotePlus(p.1);
    assert '=' !in k;
    assert Field(p) == k + ['='] + v;
    SplitOnceAt(k, '=', v);
    PlusQuote(p.0);
    PlusQuote(p.1);
  }

  /** `parse_qsl` undoes `urlencode` on plain names and non-empty plain values. */
  lemma {:induction false} ParseQslUrlencode(params: seq<(string, string)>)
    requires forall k :: 0 <= k < |params| ==> Plain(params[k].0) && Plain(params[k].1) && |params[k].1| > 0
    ensures ParseQsl(Urlencode(params)) == params
  {
    var fields := Fields(params);
    if params == [] {
      assert Split("", '&') == [""];
    } else {
      forall k | 0 <= k < |fields| ensures '&' !in fields[k] {
        assert fields[k] == QuotePlus(params[k].0) + "=" + QuotePlus(params[k].1);
      }
      SplitJoin(fields, '&');
      PairsFields(params);
    }
  }

  lemma {:induction false} PairsFields(params: seq<(string, string)>)
    requires forall k :: 0 <= k < |params| ==> Plain(params[k].0) && Plain(params[k].1) && |params[k].1| > 0
    ensures Pairs(Fields(params)) == params
  {
    if params != [] {
      PairField(params[0]);
      PairsFields(params[1..]);
      assert Fields(params)[1..] == Fields(params[1..]);
    }
  }
  /** The names of `pairs`. */
  function Names(pairs: seq<(string, string)>): set<string> {
    set k | 0 <= k < |pairs| :: pairs[k].0
  }

  /** `{k.lower(): v[0] for k, v in parse_qs(query).items()}` given the pairs of
      `parse_qsl`: each name, where it first appears, sets its lower-cased key to
      its first value, so that among names that lower-case alike the one that
      first appeared latest wins. */
  function Lowered(pairs: seq<(string, string)>): map<string, string> {
    if pairs == [] then map[]
    else
      var init := pairs[..|pairs| - 1];
      var last := pairs[|pairs| - 1];
      if last.0 in Names(init) then Lowered(init) else Lowered(init)[Lower(last.0) := last.1]
  }

  /** A key is present exactly when some name lower-cases to it, and its value is
      the first value of such a name. */
  lemma {:induction false} LoweredMeaning(pairs: seq<(string, string)>, key: string)
    ensures key in Lowered(pairs) <==> exists i :: 0 <= i < |pairs| && Lower(pairs[i].0) == key
    ensures key in Lowered(pairs) ==>
              exists i :: 0 <= i < |pairs| && Lower(pairs[i].0) == key && Lowered(pairs)[key] == pairs[i].1
                          && forall j :: 0 <= j < i ==> pairs[j].0 != pairs[i].0
    decreases |pairs|
  {
    if pairs != [] {
      var init := pairs[..|pairs| - 1];
      var n := |pairs| - 1;
      var last := pairs[n];
      LoweredMeaning(init, key);
      assert forall i :: 0 <= i < n ==> init[i] == pairs[i];
      if last.0 in Names(init) {
        var j :| 0 <= j < n && init[j].0 == last.0;
        assert Lower(pairs[j].0) == Lower(last.0);
      } else if Lower(last.0) == key {
        assert forall j :: 0 <= j < n ==> pairs[j].0 != last.0 by {
          forall j | 0 <= j < n ensures pairs[j].0 != last.0 {
            assert init[j].0 in Names(init);
          }
        }
      }
    }
  }

  /** The value of `key` in the lower-cased `parse_qs` of a query. */
  function QueryValue(query: string, key: string): Option<string> {
    var m := Lowered(ParseQsl(query));
    if key in m then Some(m[key]) else None
  }
}
