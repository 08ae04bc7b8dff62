/** JSON Pointer (RFC 6901): escaping of reference tokens, and splitting a pointer into tokens. */
module JsonPointer {
  import opened Prelude
  import opened Decimal

  /** strings.ReplaceAll for a one-character pattern. */
  function ReplaceChar(s: string, c: char, sub: string): string {
    if s == [] then [] else (if s[0] == c then sub else [s[0]]) + ReplaceChar(s[1..], c, sub)
  }

  /** Replacing a two-character pattern, left to right, without overlaps. */
  function ReplacePair(s: string, a: char, b: char, sub: char): string {
    if |s| >= 2 && s[0] == a && s[1] == b then [sub] + ReplacePair(s[2..], a, b, sub)
    else if s == [] then []
    else [s[0]] + ReplacePair(s[1..], a, b, sub)
  }

  /** escapeJSONPointer: first the tilde, then the slash. */
  function Escape(s: string): string { ReplaceChar(ReplaceChar(s, '~', ['~', '0']), '/', ['~', '1']) }

  /** Section 4 of RFC 6901: first "~1", then "~0". */
  function Unescape(s: string): string { ReplacePair(ReplacePair(s, '~', '1', '/'), '~', '0', '~') }

  lemma {:induction false} TildesComeBack(s: string)
    ensures ReplacePair(ReplaceChar(s, '~', ['~', '0']), '~', '0', '~') == s
  {
    if s != [] {
      TildesComeBack(s[1..]);
      var t := ReplaceChar(s, '~', ['~', '0']);
      if s[0] == '~' { assert t[2..] == ReplaceChar(s[1..], '~', ['~', '0']); }
      else { assert t[1..] == ReplaceChar(s[1..], '~', ['~', '0']); }
    }
  }

  /** No "~1" occurs before slashes are escaped. */
  predicate NoTildeOne(s: string) { forall i :: 0 <= i < |s| - 1 && s[i] == '~' ==> s[i + 1] != '1' }

  lemma {:induction false} SlashesComeBack(s: string)
    requires NoTildeOne(s)
    ensures ReplacePair(ReplaceChar(s, '/', ['~', '1']), '~', '1', '/') == s
  {
    if s != [] {
      SlashesComeBack(s[1..]);
      var t := ReplaceChar(s, '/', ['~', '1']);
      if s[0] == '/' {
        assert t[2..] == ReplaceChar(s[1..], '/', ['~', '1']);
      } else {
        assert t[1..] == ReplaceChar(s[1..], '/', ['~', '1']);
        if |s| > 1 { assert t[1] == if s[1] == '/' then '~' else s[1]; }
      }
    }
  }

  lemma {:induction false} EscapedTildes(s: string)
    ensures NoTildeOne(ReplaceChar(s, '~', ['~', '0']))
  {
    if s != [] {
      EscapedTildes(s[1..]);
      var t, rest := ReplaceChar(s, '~', ['~', '0']), ReplaceChar(s[1..], '~', ['~', '0']);
      if s[0] == '~' {
        assert forall i :: 2 <= i < |t| ==> t[i] == rest[i - 2];
      } else {
        assert forall i :: 1 <= i < |t| ==> t[i] == rest[i - 1];
      }
    }
  }

  /** Decoding undoes escaping, for every string. */
  lemma UnescapeOfEscape(s: string)
    ensures Unescape(Escape(s)) == s
  {
    EscapedTildes(s);
    SlashesComeBack(ReplaceChar(s, '~', ['~', '0']));
    TildesComeBack(s);
  }

  lemma {:induction false} ReplacedIsGone(s: string, c: char, sub: string)
    requires c !in sub
    ensures c !in ReplaceChar(s, c, sub)
  {
    if s != [] { ReplacedIsGone(s[1..], c, sub); }
  }

  lemma {:induction false} ReplaceNothing(s: string, c: char, sub: string)
    requires c !in s
    ensures ReplaceChar(s, c, sub) == s
  {
    if s != [] { ReplaceNothing(s[1..], c, sub); }
  }

  /** An escaped token never splits. */
  lemma EscapedHasNoSlash(s: string)
    ensures '/' !in Escape(s)
  {
    ReplacedIsGone(ReplaceChar(s, '~', ['~', '0']), '/', ['~', '1']);
  }

  // ---------------------------------------------------------------- pointers

  /** The raw token before the first slash, and what follows it. */
  function FirstToken(s: string): (r: (string, string))
    ensures |r.1| <= |s|
    ensures r.1 != [] ==> |r.1| < |s| || r.0 == []
    ensures r.1 != [] ==> r.1[0] == '/'
  {
    if s == [] then ([], [])
    else if s[0] == '/' then ([], s)
    else var r := FirstToken(s[1..]); ([s[0]] + r.0, r.1)
  }

  /** Section 3 and 4 of RFC 6901: a sequence of slash-prefixed tokens. */
  function Tokens(path: string): Option<seq<string>>
    decreases |path|
  {
    if path == [] then Some([])
    else if path[0] != '/' then None
    else
      var r := FirstToken(path[1..]);
      match Tokens(r.1) case None => None case Some(rest) => Some([Unescape(r.0)] + rest)
  }

  lemma {:induction false} FirstTokenOf(t: string, rest: string)
    requires '/' !in t && (rest != [] ==> rest[0] == '/')
    ensures FirstToken(t + rest) == (t, rest)
  {
    if t == [] {
      assert t + rest == rest;
    } else {
      assert (t + rest)[1..] == t[1..] + rest;
      FirstTokenOf(t[1..], rest);
      assert [t[0]] + t[1..] == t;
    }
  }

  /** A pointer made of escaped tokens. */
  function Pointer(tokens: seq<string>): string {
    if tokens == [] then [] else ['/'] + (Escape(tokens[0]) + Pointer(tokens[1..]))
  }

  lemma TokensStep(t: string, rest: string)
    requires '/' !in t && (rest != [] ==> rest[0] == '/') && Tokens(rest).Some?
    ensures Tokens(['/'] + (t + rest)) == Some([Unescape(t)] + Tokens(rest).value)
  {
    var path := ['/'] + (t + rest);
    FirstTokenOf(t, rest);
    assert path[0] == '/' && path[1..] == t + rest;
  }

  lemma {:induction false} TokensOfPointer(tokens: seq<string>)
    ensures Tokens(Pointer(tokens)) == Some(tokens)
  {
    if tokens != [] {
      EscapedHasNoSlash(tokens[0]);
      UnescapeOfEscape(tokens[0]);
      TokensOfPointer(tokens[1..]);
      TokensStep(Escape(tokens[0]), Pointer(tokens[1..]));
      assert tokens == [tokens[0]] + tokens[1..];
    }
  }

  lemma {:induction false} PointerConcat(a: seq<string>, b: seq<string>)
    ensures Pointer(a + b) == Pointer(a) + Pointer(b)
  {
    if a == [] {
      assert a + b == b;
    } else {
      assert (a + b)[1..] == a[1..] + b;
      PointerConcat(a[1..], b);
    }
  }

  predicate Plain(t: string) { '~' !in t && '/' !in t }

  lemma PlainToken(t: string)
    requires Plain(t)
    ensures Escape(t) == t && Pointer([t]) == ['/'] + t
  {
    ReplaceNothing(t, '~', ['~', '0']);
    ReplaceNothing(t, '/', ['~', '1']);
    assert t + Pointer([t][1..]) == t;
  }

  /** An array index is a decimal number without leading zeros. */
  function Index(t: string): Option<nat> {
    if |t| > 1 && t[0] == '0' then None else ParseDigits(t)
  }

  lemma IndexOfDigits(n: nat)
    ensures Index(Digits(n)) == Some(n) && Plain(Digits(n))
  {
    ParsePrintedDigits(n);
    assert forall i :: 0 <= i < |Digits(n)| ==> IsDigit(Digits(n)[i]);
  }
}
