/**
 * How a URL written out by hand reaches the server's query parser: the
 * browser sends nothing from the first `#` on (that is the fragment), the
 * query is what follows the first `?`, pairs are separated by `&`, a pair's
 * key ends at its first `=`, empty pairs are skipped, and keys and values
 * are decoded (`+` is a space, `%XX` is the character with that code).
 *
 * The encoding here escapes exactly the characters that this syntax
 * reserves, and the query a page writes with it is read back as the pairs
 * that were meant.
 */
module QueryString {
  import opened Platform

  predicate IsHex(c: char) {
    IsDigit(c) || 'A' <= c <= 'F' || 'a' <= c <= 'f'
  }

  function HexValue(c: char): (v: nat)
    requires IsHex(c)
    ensures v < 16
  {
    if IsDigit(c) then c as int - '0' as int
    else if 'A' <= c <= 'F' then c as int - 'A' as int + 10
    else c as int - 'a' as int + 10
  }

  /** A value as the parser reads it. */
  function Decode(s: string): string
    decreases |s|
  {
    if s == [] then []
    else if s[0] == '+' then " " + Decode(s[1..])
    else if s[0] == '%' && |s| >= 3 && IsHex(s[1]) && IsHex(s[2]) then
      [(HexValue(s[1]) * 16 + HexValue(s[2])) as char] + Decode(s[3..])
    else [s[0]] + Decode(s[1..])
  }

  /** The characters the query syntax gives a meaning to. */
  predicate IsReserved(c: char) {
    c == '%' || c == '&' || c == '#' || c == '=' || c == '+'
  }

  function EncodeChar(c: char): string {
    match c
    case '%' => "%25"
    case '&' => "%26"
    case '#' => "%23"
    case '=' => "%3D"
    case '+' => "%2B"
    case _ => [c]
  }

  /** Holds none of the characters that end a value or a query. */
  predicate Plain(s: string) {
    forall i :: 0 <= i < |s| ==> s[i] != '&' && s[i] != '#' && s[i] != '='
  }

  /** Holds nothing that decoding would change. */
  predicate Literal(s: string) {
    forall i :: 0 <= i < |s| ==> s[i] != '%' && s[i] != '+'
  }

  /** A value escaped for a query: every reserved character as `%XX`, the rest as it is. */
  function Encode(s: string): (r: string)
    ensures Plain(r)
    decreases |s|
  {
    if s == [] then [] else EncodeChar(s[0]) + Encode(s[1..])
  }

  /** Decoding undoes one escaped character and leaves what follows it to be decoded. */
  lemma DecodeEncodeChar(c: char, rest: string)
    ensures Decode(EncodeChar(c) + rest) == [c] + Decode(rest)
  {
    var e := EncodeChar(c) + rest;
    if IsReserved(c) {
      assert e[0] == '%' && |e| >= 3 && e[3..] == rest;
    } else {
      assert e[0] == c && e[1..] == rest;
    }
  }

  /** Reading an escaped value gives the value back. */
  lemma {:induction false} DecodeEncode(s: string)
    ensures Decode(Encode(s)) == s
    decreases |s|
  {
    if s != [] {
      DecodeEncodeChar(s[0], Encode(s[1..]));
      DecodeEncode(s[1..]);
    }
  }

  /** Decoding leaves a literal string as it is. */
  lemma {:induction false} DecodeLiteral(s: string)
    requires Literal(s)
    ensures Decode(s) == s
    decreases |s|
  {
    if s != [] {
      DecodeLiteral(s[1..]);
    }
  }

  /** `s.split(sep)`. */
  function Split(s: string, sep: char): (parts: seq<string>)
    ensures |parts| >= 1
    decreases |s|
  {
    var i := IndexOf(s, sep);
    if i == |s| then [s] else [s[..i]] + Split(s[i + 1..], sep)
  }

  /** One `key=value` pair, split at its first `=`. */
  function ParsePair(part: string): (string, string) {
    var i := IndexOf(part, '=');
    if i == |part| then (Decode(part), "") else (Decode(part[..i]), Decode(part[i + 1..]))
  }

  function ParsePairs(parts: seq<string>): seq<(string, string)> {
    if parts == [] then []
    else if parts[0] == "" then ParsePairs(parts[1..])
    else [ParsePair(parts[0])] + ParsePairs(parts[1..])
  }

  /** The pairs the server reads from a URL. */
  function ParseQuery(url: string): seq<(string, string)> {
    var sent := url[..IndexOf(url, '#')];
    var q := IndexOf(sent, '?');
    ParsePairs(Split(if q < |sent| then sent[q + 1..] else "", '&'))
  }

  /** Pairs written as `key=value`, joined by `&`, with nothing escaped. */
  function Join(pairs: seq<(string, string)>): string {
    if pairs == [] then ""
    else if |pairs| == 1 then pairs[0].0 + "=" + pairs[0].1
    else pairs[0].0 + "=" + pairs[0].1 + "&" + Join(pairs[1..])
  }

  /** Joining a pair in front of others puts it first, followed by `&`. */
  lemma JoinCons(k: string, v: string, rest: seq<(string, string)>)
    requires rest != []
    ensures Join([(k, v)] + rest) == k + "=" + v + "&" + Join(rest)
  {
    assert ([(k, v)] + rest)[1..] == rest;
  }

  lemma SpliceText(k: string, x: string, k2: string, t: string, j: string)
    ensures k + "=" + (x + "&" + k2 + "=" + t) + "&" + j == k + "=" + x + "&" + (k2 + "=" + t + "&" + j)
  {
    var h := k + "=";
    var m := k2 + "=" + t + "&";
    ConcatAssoc(h, x + "&" + k2 + "=" + t, "&");
    ConcatAssoc(h + (x + "&" + k2 + "=" + t), "&", j);
    ConcatAssoc(h, x + "&" + k2 + "=" + t + "&", j);
    ConcatAssoc(x + "&", k2, "=");
    ConcatAssoc(x + "&", k2 + "=", t);
    ConcatAssoc(x + "&", k2 + "=" + t, "&");
    assert x + "&" + k2 + "=" + t + "&" == x + "&" + m;
    ConcatAssoc(x + "&", m, j);
    ConcatAssoc(h, x + "&", m + j);
    ConcatAssoc(h + x, "&", m + j);
    ConcatAssoc(h, x, "&");
    ConcatAssoc(k2 + "=" + t, "&", j);
  }

  /** A value that holds `&key=value` joins to the same text as that extra pair written out. */
  lemma JoinSplice(k: string, x: string, k2: string, t: string, rest: seq<(string, string)>)
    requires rest != []
    ensures Join([(k, x + "&" + k2 + "=" + t)] + rest) == Join([(k, x), (k2, t)] + rest)
  {
    JoinCons(k, x + "&" + k2 + "=" + t, rest);
    JoinCons(k2, t, rest);
    JoinCons(k, x, [(k2, t)] + rest);
    assert [(k, x), (k2, t)] + rest == [(k, x)] + ([(k2, t)] + rest);
    SpliceText(k, x, k2, t, Join(rest));
  }

  function DecodePairs(pairs: seq<(string, string)>): (r: seq<(string, string)>)
    ensures |r| == |pairs|
  {
    if pairs == [] then [] else [(Decode(pairs[0].0), Decode(pairs[0].1))] + DecodePairs(pairs[1..])
  }

  /** Decoding leaves pairs of literal strings as they are. */
  lemma {:induction false} DecodePairsLiteral(pairs: seq<(string, string)>)
    requires forall j :: 0 <= j < |pairs| ==> Literal(pairs[j].0) && Literal(pairs[j].1)
    ensures DecodePairs(pairs) == pairs
    decreases |pairs|
  {
    if pairs != [] {
      DecodeLiteral(pairs[0].0);
      DecodeLiteral(pairs[0].1);
      DecodePairsLiteral(pairs[1..]);
    }
  }

  /** Decoding pairs that are literal but for one value decodes that value alone. */
  lemma {:induction false} DecodePairsOneValue(pairs: seq<(string, string)>, k: nat)
    requires k < |pairs|
    requires forall j :: 0 <= j < |pairs| ==> Literal(pairs[j].0) && (j != k ==> Literal(pairs[j].1))
    ensures DecodePairs(pairs) == pairs[k := (pairs[k].0, Decode(pairs[k].1))]
    decreases |pairs|
  {
    DecodeLiteral(pairs[0].0);
    if k == 0 {
      DecodePairsLiteral(pairs[1..]);
    } else {
      DecodeLiteral(pairs[0].1);
      DecodePairsOneValue(pairs[1..], k - 1);
    }
  }

  lemma ConcatAssoc(a: string, b: string, c: string)
    ensures a + b + c == a + (b + c)
  {
  }

  predicate AllPlain(pairs: seq<(string, string)>) {
    forall j :: 0 <= j < |pairs| ==> Plain(pairs[j].0) && Plain(pairs[j].1)
  }

  lemma IndexOfAt(s: string, c: char, k: nat)
    requires k < |s| && s[k] == c && forall i :: 0 <= i < k ==> s[i] != c
    ensures IndexOf(s, c) == k
  {
  }

  lemma IndexOfAbsent(s: string, c: char)
    requires forall i :: 0 <= i < |s| ==> s[i] != c
    ensures IndexOf(s, c) == |s|
  {
  }

  /** Joined plain pairs hold no `#`, so no part of them is lost as a fragment. */
  lemma {:induction false} JoinHasNoHash(pairs: seq<(string, string)>)
    requires AllPlain(pairs)
    ensures forall i :: 0 <= i < |Join(pairs)| ==> Join(pairs)[i] != '#'
    decreases |pairs|
  {
    if |pairs| >= 2 {
      JoinHasNoHash(pairs[1..]);
      var head := pairs[0].0 + "=" + pairs[0].1;
      assert Join(pairs) == head + "&" + Join(pairs[1..]);
      assert forall i :: 0 <= i < |head| ==> head[i] != '#' by {
        assert Plain(pairs[0].0) && Plain(pairs[0].1);
      }
    } else if |pairs| == 1 {
      assert Plain(pairs[0].0) && Plain(pairs[0].1);
    }
  }

  /** A pair with a plain key is split where it was joined. */
  lemma ParseOnePair(k: string, v: string)
    requires Plain(k)
    ensures ParsePair(k + "=" + v) == (Decode(k), Decode(v))
  {
    var part := k + "=" + v;
    IndexOfAt(part, '=', |k|);
    assert part[..|k|] == k && part[|k| + 1..] == v;
  }

  /** Splitting at a separator that the first piece does not hold gives that piece first. */
  lemma SplitAfter(a: string, b: string, sep: char)
    requires forall i :: 0 <= i < |a| ==> a[i] != sep
    ensures Split(a + [sep] + b, sep) == [a] + Split(b, sep)
  {
    var s := a + [sep] + b;
    IndexOfAt(s, sep, |a|);
    assert s[..|a|] == a && s[|a| + 1..] == b;
  }

  /** Plain pairs joined with `&` are parsed back into the decoded pairs, in order. */
  lemma {:induction false} ParseJoin(pairs: seq<(string, string)>)
    requires AllPlain(pairs)
    ensures ParsePairs(Split(Join(pairs), '&')) == DecodePairs(pairs)
    decreases |pairs|
  {
    if pairs == [] {
      IndexOfAbsent("", '&');
    } else {
      var k, v := pairs[0].0, pairs[0].1;
      assert Plain(k) && Plain(v);
      var head := k + "=" + v;
      assert forall i :: 0 <= i < |head| ==> head[i] != '&';
      ParseOnePair(k, v);
      if |pairs| == 1 {
        IndexOfAbsent(head, '&');
        assert Split(head, '&') == [head];
      } else {
        SplitAfter(head, Join(pairs[1..]), '&');
        assert Join(pairs) == head + ['&'] + Join(pairs[1..]);
        ParseJoin(pairs[1..]);
      }
    }
  }

  /** A URL `path?query` whose path holds no `?` and neither part a `#` is read as its joined pairs. */
  lemma ParseUrl(path: string, pairs: seq<(string, string)>)
    requires AllPlain(pairs)
    requires forall i :: 0 <= i < |path| ==> path[i] != '?' && path[i] != '#'
    ensures ParseQuery(path + "?" + Join(pairs)) == DecodePairs(pairs)
  {
    var url := path + "?" + Join(pairs);
    JoinHasNoHash(pairs);
    IndexOfAbsent(url, '#');
    assert url[..|url|] == url;
    IndexOfAt(url, '?', |path|);
    assert url[|path| + 1..] == Join(pairs);
    ParseJoin(pairs);
  }

  /** A URL built from plain, literal pairs is read as exactly those pairs. */
  lemma ParseLiteralUrl(path: string, pairs: seq<(string, string)>)
    requires AllPlain(pairs)
    requires forall j :: 0 <= j < |pairs| ==> Literal(pairs[j].0) && Literal(pairs[j].1)
    requires forall i :: 0 <= i < |path| ==> path[i] != '?' && path[i] != '#'
    ensures ParseQuery(path + "?" + Join(pairs)) == pairs
  {
    ParseUrl(path, pairs);
    DecodePairsLiteral(pairs);
  }

  /** Whatever follows the first `#` of a URL never reaches the server. */
  lemma FragmentIgnored(before: string, after: string)
    requires forall i :: 0 <= i < |before| ==> before[i] != '#'
    ensures ParseQuery(before + "#" + after) == ParseQuery(before)
  {
    var url := before + "#" + after;
    IndexOfAt(url, '#', |before|);
    IndexOfAbsent(before, '#');
    assert url[..|before|] == before;
    assert before[..|before|] == before;
  }
}
