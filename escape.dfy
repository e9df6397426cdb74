/** TEXT value escaping of the iCalendar writer (section 3.3.11 of RFC 5545),
    modelled on `_escape_ical_text` in src/ics.py. */
module IcsEscape {
  import opened Common

  /** The source's chain of six replaces, in the source's order: backslash
      first, then semicolon, comma, CRLF, LF and lone CR. No replacement
      is shorter than what it replaces, so escaping never shortens a value. */
  function EscapeText(value: string): (r: string)
    ensures |r| >= |value|
  {
    var s1 := Replace(value, "\\", "\\\\");
    var s2 := Replace(s1, ";", "\\;");
    var s3 := Replace(s2, ",", "\\,");
    var s4 := Replace(s3, "\r\n", "\\n");
    var s5 := Replace(s4, "\n", "\\n");
    ReplaceLength(value, "\\", "\\\\");
    ReplaceLength(s1, ";", "\\;");
    ReplaceLength(s2, ",", "\\,");
    ReplaceLength(s3, "\r\n", "\\n");
    ReplaceLength(s4, "\n", "\\n");
    ReplaceLength(s5, "\r", "\\n");
    Replace(s5, "\r", "\\n")
  }

  /** Characters that escaping rewrites. */
  predicate Special(c: char) {
    c == '\\' || c == ';' || c == ',' || c == '\r' || c == '\n'
  }

  /** How one input character is escaped when it is not the CR of a CRLF. */
  function EscapeChar(c: char): (r: string)
    ensures Special(c) ==> |r| == 2 && r[0] == '\\'
    ensures !Special(c) ==> r == [c]
  {
    if c == '\\' then "\\\\"
    else if c == ';' then "\\;"
    else if c == ',' then "\\,"
    else if c == '\r' || c == '\n' then "\\n"
    else [c]
  }

  /** Reference definition: one left-to-right pass over the input, one token
      at a time, a CRLF pair being one token. */
  function EscapeTokens(v: string): string
    decreases |v|
  {
    if v == [] then []
    else if "\r\n" <= v then "\\n" + EscapeTokens(v[2..])
    else EscapeChar(v[0]) + EscapeTokens(v[1..])
  }

  /** The inverse direction, as a reader of RFC 5545 TEXT applies it:
      `\\`, `\;`, `\,` stand for themselves and `\n` or `\N` for a line feed. */
  function Unescape(s: string): string
    decreases |s|
  {
    if s == [] then []
    else if |s| >= 2 && s[0] == '\\' && (s[1] == '\\' || s[1] == ';' || s[1] == ',') then
      [s[1]] + Unescape(s[2..])
    else if |s| >= 2 && s[0] == '\\' && (s[1] == 'n' || s[1] == 'N') then
      "\n" + Unescape(s[2..])
    else [s[0]] + Unescape(s[1..])
  }

  /** Every line break (CRLF, lone CR or LF) written as a single LF. */
  function NormalizeNewlines(s: string): string
    decreases |s|
  {
    if s == [] then []
    else if "\r\n" <= s then "\n" + NormalizeNewlines(s[2..])
    else if s[0] == '\r' then "\n" + NormalizeNewlines(s[1..])
    else [s[0]] + NormalizeNewlines(s[1..])
  }

  /** The shape of an escaped value: no raw line break, semicolon or comma,
      and every backslash starts one of the pairs `\\`, `\;`, `\,`, `\n`. */
  predicate Escaped(s: string)
    decreases |s|
  {
    if s == [] then true
    else if s[0] == '\\' then
      |s| >= 2 && (s[1] == '\\' || s[1] == ';' || s[1] == ',' || s[1] == 'n') && Escaped(s[2..])
    else !Special(s[0]) && Escaped(s[1..])
  }

  predicate NoLineBreaks(s: string) {
    forall i :: 0 <= i < |s| ==> s[i] != '\r' && s[i] != '\n'
  }

  // ---------------------------------------------------------------------
  // The chain of replaces equals the single pass.

  /** The first three replaces (backslash, semicolon, comma). */
  function Punctuation(s: string): string {
    Replace(Replace(Replace(s, "\\", "\\\\"), ";", "\\;"), ",", "\\,")
  }

  /** The last three replaces (CRLF, LF, CR). */
  function LineBreaks(s: string): string {
    Replace(Replace(Replace(s, "\r\n", "\\n"), "\n", "\\n"), "\r", "\\n")
  }

  lemma EscapeTextStages(v: string)
    ensures EscapeText(v) == LineBreaks(Punctuation(v))
  {
  }

  lemma ReplaceUntouched(s: string, pat: string, rep: string)
    requires |pat| > 0
    requires forall i :: 0 <= i < |s| ==> s[i] != pat[0]
    ensures Replace(s, pat, rep) == s
  {
    ReplaceSkip(s, [], pat, rep);
    assert s + [] == s;
  }

  lemma ReplaceOwnChar(c: char, rep: string)
    ensures Replace([c], [c], rep) == rep
  {
    assert [c][1..] == [];
  }

  /** What the first three replaces make of one character. */
  function PunctuationChar(c: char): string {
    if c == '\\' then "\\\\"
    else if c == ';' then "\\;"
    else if c == ',' then "\\,"
    else [c]
  }

  lemma PunctuationOfChar(c: char)
    ensures Punctuation([c]) == PunctuationChar(c)
  {
    if c == '\\' {
      ReplaceOwnChar(c, "\\\\");
      ReplaceUntouched("\\\\", ";", "\\;");
      ReplaceUntouched("\\\\", ",", "\\,");
    } else if c == ';' {
      ReplaceUntouched([c], "\\", "\\\\");
      ReplaceOwnChar(c, "\\;");
      ReplaceUntouched("\\;", ",", "\\,");
    } else if c == ',' {
      ReplaceUntouched([c], "\\", "\\\\");
      ReplaceUntouched([c], ";", "\\;");
      ReplaceOwnChar(c, "\\,");
    } else {
      ReplaceUntouched([c], "\\", "\\\\");
      ReplaceUntouched([c], ";", "\\;");
      ReplaceUntouched([c], ",", "\\,");
    }
  }

  lemma PunctuationAppend(a: string, b: string)
    ensures Punctuation(a + b) == Punctuation(a) + Punctuation(b)
  {
    var a1, b1 := Replace(a, "\\", "\\\\"), Replace(b, "\\", "\\\\");
    ReplaceAppendChar(a, b, '\\', "\\\\");
    var a2, b2 := Replace(a1, ";", "\\;"), Replace(b1, ";", "\\;");
    ReplaceAppendChar(a1, b1, ';', "\\;");
    ReplaceAppendChar(a2, b2, ',', "\\,");
  }

  /** The first three replaces keep a leading LF where it was. */
  lemma PunctuationFirst(s: string)
    requires s != []
    ensures Punctuation(s) != [] && (Punctuation(s)[0] == '\n' <==> s[0] == '\n')
  {
    assert s == [s[0]] + s[1..];
    PunctuationAppend([s[0]], s[1..]);
    PunctuationOfChar(s[0]);
  }

  lemma LineBreaksAppend(a: string, b: string)
    requires !(|a| > 0 && a[|a| - 1] == '\r' && |b| > 0 && b[0] == '\n')
    ensures LineBreaks(a + b) == LineBreaks(a) + LineBreaks(b)
  {
    var a1, b1 := Replace(a, "\r\n", "\\n"), Replace(b, "\r\n", "\\n");
    ReplaceAppendPair(a, b, "\r\n", "\\n");
    var a2, b2 := Replace(a1, "\n", "\\n"), Replace(b1, "\n", "\\n");
    ReplaceAppendChar(a1, b1, '\n', "\\n");
    ReplaceAppendChar(a2, b2, '\r', "\\n");
  }

  lemma EscapeTextOfChar(c: char)
    ensures EscapeText([c]) == EscapeChar(c)
  {
    EscapeTextStages([c]);
    PunctuationOfChar(c);
    var p := PunctuationChar(c);
    if c == '\r' {
      ReplaceAppendPairSingle([c], [], "\r\n", "\\n");
      ReplaceUntouched([c], "\n", "\\n");
      ReplaceOwnChar(c, "\\n");
    } else if c == '\n' {
      ReplaceUntouched([c], "\r\n", "\\n");
      ReplaceOwnChar(c, "\\n");
      ReplaceUntouched("\\n", "\r", "\\n");
    } else {
      ReplaceUntouched(p, "\r\n", "\\n");
      ReplaceUntouched(p, "\n", "\\n");
      ReplaceUntouched(p, "\r", "\\n");
    }
  }

  lemma EscapeTextOfCrLf()
    ensures EscapeText("\r\n") == "\\n"
  {
    EscapeTextStages("\r\n");
    ReplaceUntouched("\r\n", "\\", "\\\\");
    ReplaceUntouched("\r\n", ";", "\\;");
    ReplaceUntouched("\r\n", ",", "\\,");
    assert Replace("\r\n", "\r\n", "\\n") == "\\n" by {
      assert "\r\n"[2..] == [];
    }
    ReplaceUntouched("\\n", "\n", "\\n");
    ReplaceUntouched("\\n", "\r", "\\n");
  }

  /** Escaping a token and the rest separately equals escaping both. */
  lemma EscapeTextAppendCrLf(rest: string)
    ensures EscapeText("\r\n" + rest) == EscapeText("\r\n") + EscapeText(rest)
  {
    EscapeTextStages("\r\n" + rest);
    EscapeTextStages("\r\n");
    EscapeTextStages(rest);
    PunctuationAppend("\r\n", rest);
    ReplaceUntouched("\r\n", "\\", "\\\\");
    ReplaceUntouched("\r\n", ";", "\\;");
    ReplaceUntouched("\r\n", ",", "\\,");
    assert Punctuation("\r\n") == "\r\n";
    LineBreaksAppend(Punctuation("\r\n"), Punctuation(rest));
  }

  lemma EscapeTextAppendChar(c: char, rest: string)
    requires !(c == '\r' && rest != [] && rest[0] == '\n')
    ensures EscapeText([c] + rest) == EscapeText([c]) + EscapeText(rest)
  {
    EscapeTextStages([c] + rest);
    EscapeTextStages([c]);
    EscapeTextStages(rest);
    PunctuationAppend([c], rest);
    PunctuationOfChar(c);
    if rest != [] { PunctuationFirst(rest); }
    LineBreaksAppend(Punctuation([c]), Punctuation(rest));
  }

  /** The source's replace chain computes the single-pass escaping. */
  lemma {:induction false} EscapeTextIsSinglePass(v: string)
    ensures EscapeText(v) == EscapeTokens(v)
    decreases |v|
  {
    if v == [] {
      assert Replace([], "\\", "\\\\") == [];
    } else if "\r\n" <= v {
      assert v == "\r\n" + v[2..];
      EscapeTextAppendCrLf(v[2..]);
      EscapeTextOfCrLf();
      EscapeTextIsSinglePass(v[2..]);
    } else {
      assert v == [v[0]] + v[1..];
      if |v| >= 2 { assert v[..2] == [v[0], v[1]]; }
      EscapeTextAppendChar(v[0], v[1..]);
      EscapeTextOfChar(v[0]);
      EscapeTextIsSinglePass(v[1..]);
    }
  }

  // ---------------------------------------------------------------------
  // Properties of the single pass, hence of EscapeText.

  lemma EscapedAppendToken(c: char, rest: string)
    requires Escaped(rest)
    ensures Escaped(EscapeChar(c) + rest)
  {
    var t := EscapeChar(c) + rest;
    if Special(c) {
      assert t[2..] == rest;
    } else {
      assert t[1..] == rest;
    }
  }

  lemma {:induction false} EscapeTokensEscaped(v: string)
    ensures Escaped(EscapeTokens(v))
    decreases |v|
  {
    if v == [] {
    } else if "\r\n" <= v {
      EscapeTokensEscaped(v[2..]);
      EscapedAppendToken('\n', EscapeTokens(v[2..]));
    } else {
      EscapeTokensEscaped(v[1..]);
      EscapedAppendToken(v[0], EscapeTokens(v[1..]));
    }
  }

  lemma {:induction false} EscapedHasNoLineBreaks(s: string)
    requires Escaped(s)
    ensures NoLineBreaks(s)
    decreases |s|
  {
    if s == [] {
    } else if s[0] == '\\' {
      EscapedHasNoLineBreaks(s[2..]);
      assert forall i :: 2 <= i < |s| ==> s[i] == s[2..][i - 2];
    } else {
      EscapedHasNoLineBreaks(s[1..]);
      assert forall i :: 1 <= i < |s| ==> s[i] == s[1..][i - 1];
    }
  }

  /** Escaped output has the TEXT shape: every backslash begins an escape
      pair and no raw semicolon, comma, CR or LF is left. */
  lemma EscapeTextEscaped(v: string)
    ensures Escaped(EscapeText(v))
    ensures NoLineBreaks(EscapeText(v))
  {
    EscapeTextIsSinglePass(v);
    EscapeTokensEscaped(v);
    EscapedHasNoLineBreaks(EscapeText(v));
  }

  lemma UnescapeToken(c: char, rest: string)
    ensures Unescape(EscapeChar(c) + rest) == (if c == '\r' then "\n" else [c]) + Unescape(rest)
  {
    var t := EscapeChar(c) + rest;
    if Special(c) {
      assert t[2..] == rest;
    } else {
      assert t[1..] == rest;
    }
  }

  lemma {:induction false} UnescapeEscapeTokens(v: string)
    ensures Unescape(EscapeTokens(v)) == NormalizeNewlines(v)
    decreases |v|
  {
    if v == [] {
    } else if "\r\n" <= v {
      UnescapeEscapeTokens(v[2..]);
      UnescapeToken('\n', EscapeTokens(v[2..]));
    } else {
      UnescapeEscapeTokens(v[1..]);
      UnescapeToken(v[0], EscapeTokens(v[1..]));
    }
  }

  /** Round trip: unescaping the escaped value gives back the value with
      every CRLF and lone CR turned into LF. */
  lemma EscapeRoundTrip(v: string)
    ensures Unescape(EscapeText(v)) == NormalizeNewlines(v)
  {
    EscapeTextIsSinglePass(v);
    UnescapeEscapeTokens(v);
  }

  /** The first token of an escaped value: one character `c`, written as
      `EscapeChar(c)`, followed by the rest of the value. */
  lemma EscapedHead(s: string) returns (c: char, k: nat)
    requires Escaped(s) && s != []
    ensures k <= |s| && c != '\r'
    ensures s == EscapeChar(c) + s[k..] && Escaped(s[k..])
    ensures Unescape(s) == [c] + Unescape(s[k..])
  {
    if s[0] == '\\' {
      k := 2;
      c := if s[1] == 'n' then '\n' else s[1];
      assert s == s[..2] + s[2..];
    } else {
      k := 1;
      c := s[0];
      assert s == [s[0]] + s[1..];
    }
  }

  lemma EscapeTokensCons(c: char, rest: string)
    requires c != '\r'
    ensures EscapeTokens([c] + rest) == EscapeChar(c) + EscapeTokens(rest)
  {
    assert ([c] + rest)[0] == c;
    assert ([c] + rest)[1..] == rest;
  }

  lemma {:induction false} UnescapeTokensRoundTrip(s: string)
    requires Escaped(s)
    ensures EscapeTokens(Unescape(s)) == s
    decreases |s|
  {
    if s != [] {
      var c, k := EscapedHead(s);
      UnescapeTokensRoundTrip(s[k..]);
      EscapeTokensCons(c, Unescape(s[k..]));
    }
  }

  /** The other direction: escaping undoes unescaping on values of the
      escaped shape. */
  lemma UnescapeRoundTrip(s: string)
    requires Escaped(s)
    ensures EscapeText(Unescape(s)) == s
  {
    EscapeTextIsSinglePass(Unescape(s));
    UnescapeTokensRoundTrip(s);
  }

  lemma {:induction false} EscapeTokensPlain(v: string)
    requires forall i :: 0 <= i < |v| ==> !Special(v[i])
    ensures EscapeTokens(v) == v
    decreases |v|
  {
    if v != [] {
      assert !Special(v[0]);
      assert v[0] != "\r\n"[0];
      EscapeTokensPlain(v[1..]);
    }
  }

  /** Escaping strictly lengthens a value holding a backslash, semicolon or
      comma, and never shortens one. */
  lemma {:induction false} EscapeTokensLength(v: string)
    ensures |EscapeTokens(v)| >= |v|
    ensures (exists i :: 0 <= i < |v| && (v[i] == '\\' || v[i] == ';' || v[i] == ','))
            ==> |EscapeTokens(v)| > |v|
    decreases |v|
  {
    if v == [] {
    } else if "\r\n" <= v {
      EscapeTokensLength(v[2..]);
      assert forall i :: 2 <= i < |v| ==> v[i] == v[2..][i - 2];
    } else {
      EscapeTokensLength(v[1..]);
      assert forall i :: 1 <= i < |v| ==> v[i] == v[1..][i - 1];
    }
  }

  /** A value is returned unchanged exactly when it holds none of
      backslash, semicolon, comma, CR and LF. */
  lemma EscapeIdentityIff(v: string)
    ensures EscapeText(v) == v <==> forall i :: 0 <= i < |v| ==> !Special(v[i])
  {
    EscapeTextIsSinglePass(v);
    if forall i :: 0 <= i < |v| ==> !Special(v[i]) {
      EscapeTokensPlain(v);
    } else {
      var i :| 0 <= i < |v| && Special(v[i]);
      EscapeTextEscaped(v);
      if v[i] == '\r' || v[i] == '\n' {
        assert !NoLineBreaks(v);
      } else {
        EscapeTokensLength(v);
      }
    }
  }

  // ---------------------------------------------------------------------
  // STATUS and TRANSP are upper-cased after escaping.

  lemma UpperAppend(a: string, b: string)
    ensures Upper(a + b) == Upper(a) + Upper(b)
  {
  }

  lemma UnescapeUpperToken(c: char, rest: string)
    ensures Unescape(Upper(EscapeChar(c)) + rest)
      == Upper(if c == '\r' then "\n" else [c]) + Unescape(rest)
  {
    var t := Upper(EscapeChar(c)) + rest;
    if Special(c) {
      assert t[2..] == rest;
    } else {
      assert t[1..] == rest;
    }
  }

  /** The first token of the single pass, as a character and a length. */
  lemma EscapeTokensHead(v: string) returns (c: char, k: nat)
    requires v != []
    ensures 1 <= k <= |v|
    ensures EscapeTokens(v) == EscapeChar(c) + EscapeTokens(v[k..])
    ensures NormalizeNewlines(v) == (if c == '\r' then "\n" else [c]) + NormalizeNewlines(v[k..])
  {
    if "\r\n" <= v {
      k, c := 2, '\n';
    } else {
      k, c := 1, v[0];
    }
  }

  lemma {:induction false} UnescapeUpperTokens(v: string)
    ensures Unescape(Upper(EscapeTokens(v))) == Upper(NormalizeNewlines(v))
    decreases |v|
  {
    if v != [] {
      var c, k := EscapeTokensHead(v);
      UnescapeUpperTokens(v[k..]);
      UpperAppend(EscapeChar(c), EscapeTokens(v[k..]));
      UnescapeUpperToken(c, Upper(EscapeTokens(v[k..])));
      UpperAppend(if c == '\r' then "\n" else [c], NormalizeNewlines(v[k..]));
    }
  }

  /** Upper-casing an escaped value keeps every escape readable: `\n`
      becomes `\N`, which a reader decodes to a line feed too. */
  lemma UpperEscapeRoundTrip(v: string)
    ensures Unescape(Upper(EscapeText(v))) == Upper(NormalizeNewlines(v))
    ensures NoLineBreaks(Upper(EscapeText(v)))
  {
    EscapeTextIsSinglePass(v);
    UnescapeUpperTokens(v);
    EscapeTextEscaped(v);
  }
}
