/**
 * TEXT escaping of RFC 5545 section 3.3.11 as the generator performs it: five
 * global replacements applied one after the other (backslash first, then
 * semicolon, comma, line feed and, beyond the RFC, carriage return), and the
 * empty text kept empty.
 */
module Escaping {
  import opened Text

  /** `s.replace(/c/g, rep)` for a single character `c`. */
  function ReplaceAll(s: string, c: char, rep: string): string {
    if s == [] then []
    else (if s[0] == c then rep else [s[0]]) + ReplaceAll(s[1..], c, rep)
  }

  /** The replacements of `escapeText`, in the order it applies them. */
  const Replacements: seq<(char, string)> :=
    [('\\', "\\\\"), (';', "\\;"), (',', "\\,"), ('\n', "\\n"), ('\r', "\\r")]

  /** A chain of global replacements, each applied to the result of the previous one. */
  function ReplaceEach(s: string, reps: seq<(char, string)>): string
    decreases |reps|
  {
    if reps == [] then s else ReplaceEach(ReplaceAll(s, reps[0].0, reps[0].1), reps[1..])
  }

  /** The generator's `escapeText`: the five replacements in source order, the empty text kept empty. */
  function EscapeText(text: string): string {
    if text == [] then [] else ReplaceEach(text, Replacements)
  }

  predicate IsSpecial(c: char) {
    c == '\\' || c == ';' || c == ',' || c == '\n' || c == '\r'
  }

  /** What one input character becomes in escaped text. */
  function EscapeChar(c: char): (r: string)
    ensures IsSpecial(c) ==> |r| == 2 && r[0] == '\\'
    ensures !IsSpecial(c) ==> r == [c]
  {
    if c == '\\' then "\\\\"
    else if c == ';' then "\\;"
    else if c == ',' then "\\,"
    else if c == '\n' then "\\n"
    else if c == '\r' then "\\r"
    else [c]
  }

  /** Reference definition: escape every character independently, in one pass. */
  function EscapeEach(s: string): string {
    if s == [] then [] else EscapeChar(s[0]) + EscapeEach(s[1..])
  }

  /** The character an escape sequence `\x` stands for. */
  function UnescapeChar(x: char): char {
    if x == 'n' then '\n' else if x == 'r' then '\r' else x
  }

  /** Decoder for escaped text: `\x` becomes the character it stands for, everything else is kept. */
  function Unescape(s: string): string
    decreases |s|
  {
    if s == [] then []
    else if s[0] == '\\' && |s| >= 2 then [UnescapeChar(s[1])] + Unescape(s[2..])
    else [s[0]] + Unescape(s[1..])
  }

  /**
   * Escaped text as RFC 5545 section 3.3.11 allows it: every backslash starts one
   * of the escapes `\\`, `\;`, `\,`, `\n`, `\r`, and no bare `;`, `,`, line feed or
   * carriage return occurs.
   */
  predicate WellEscaped(s: string)
    decreases |s|
  {
    if s == [] then true
    else if s[0] == '\\' then
      |s| >= 2 && (s[1] == '\\' || s[1] == ';' || s[1] == ',' || s[1] == 'n' || s[1] == 'r')
      && WellEscaped(s[2..])
    else !IsSpecial(s[0]) && WellEscaped(s[1..])
  }

  // ---------------------------------------------------------------------------
  // Lemmas

  lemma {:induction false} ReplaceAllAppend(a: string, b: string, c: char, rep: string)
    ensures ReplaceAll(a + b, c, rep) == ReplaceAll(a, c, rep) + ReplaceAll(b, c, rep)
  {
    if a != [] {
      assert (a + b)[1..] == a[1..] + b;
      ReplaceAllAppend(a[1..], b, c, rep);
    } else {
      assert a + b == b;
    }
  }

  lemma {:induction false} ReplaceAllAbsent(s: string, c: char, rep: string)
    requires c !in s
    ensures ReplaceAll(s, c, rep) == s
  {
    if s != [] {
      ReplaceAllAbsent(s[1..], c, rep);
      assert [s[0]] + s[1..] == s;
    }
  }

  lemma ReplaceAllSingle(x: char, c: char, rep: string)
    ensures ReplaceAll([x], c, rep) == if x == c then rep else [x]
  {
    assert [x][1..] == [];
  }

  /**
   * The five passes written out, without the empty-text shortcut. `ReplaceEach`
   * keeps the chain folded so that `EscapeText` does not unfold in every proof;
   * this nest is the form the per-character proof takes apart.
   */
  function Passes(s: string): string {
    ReplaceAll(ReplaceAll(ReplaceAll(ReplaceAll(ReplaceAll(s, '\\', "\\\\"), ';', "\\;"), ',', "\\,"), '\n', "\\n"), '\r', "\\r")
  }

  lemma ReplacementsArePasses(s: string)
    ensures ReplaceEach(s, Replacements) == Passes(s)
  {
    var r := Replacements;
    var s1 := ReplaceAll(s, '\\', "\\\\");
    var s2 := ReplaceAll(s1, ';', "\\;");
    var s3 := ReplaceAll(s2, ',', "\\,");
    var s4 := ReplaceAll(s3, '\n', "\\n");
    assert ReplaceEach(s, r) == ReplaceEach(s1, r[1..]);
    assert ReplaceEach(s1, r[1..]) == ReplaceEach(s2, r[2..]);
    assert ReplaceEach(s2, r[2..]) == ReplaceEach(s3, r[3..]);
    assert ReplaceEach(s3, r[3..]) == ReplaceEach(s4, r[4..]);
    assert ReplaceEach(s4, r[4..]) == ReplaceEach(ReplaceAll(s4, '\r', "\\r"), r[5..]);
  }

  lemma PassesAppend(a: string, b: string)
    ensures Passes(a + b) == Passes(a) + Passes(b)
  {
    var a1, b1 := ReplaceAll(a, '\\', "\\\\"), ReplaceAll(b, '\\', "\\\\");
    ReplaceAllAppend(a, b, '\\', "\\\\");
    var a2, b2 := ReplaceAll(a1, ';', "\\;"), ReplaceAll(b1, ';', "\\;");
    ReplaceAllAppend(a1, b1, ';', "\\;");
    var a3, b3 := ReplaceAll(a2, ',', "\\,"), ReplaceAll(b2, ',', "\\,");
    ReplaceAllAppend(a2, b2, ',', "\\,");
    var a4, b4 := ReplaceAll(a3, '\n', "\\n"), ReplaceAll(b3, '\n', "\\n");
    ReplaceAllAppend(a3, b3, '\n', "\\n");
    ReplaceAllAppend(a4, b4, '\r', "\\r");
  }

  /** On one character the five passes produce exactly that character's escape. */
  lemma PassesChar(c: char)
    ensures Passes([c]) == EscapeChar(c)
  {
    var e := EscapeChar(c);
    var s1 := ReplaceAll([c], '\\', "\\\\");
    ReplaceAllSingle(c, '\\', "\\\\");
    assert s1 == (if c == '\\' then "\\\\" else [c]);
    var s2 := ReplaceAll(s1, ';', "\\;");
    if s1 == [c] { ReplaceAllSingle(c, ';', "\\;"); }
    if c == '\\' {
      ReplaceAllAbsent(s1, ';', "\\;");
    }
    assert s2 == (if c == '\\' || c == ';' then e else [c]);
    var s3 := ReplaceAll(s2, ',', "\\,");
    if s2 == [c] { ReplaceAllSingle(c, ',', "\\,"); }
    if c == '\\' || c == ';' {
      ReplaceAllAbsent(s2, ',', "\\,");
    }
    assert s3 == (if c == '\\' || c == ';' || c == ',' then e else [c]);
    var s4 := ReplaceAll(s3, '\n', "\\n");
    if s3 == [c] { ReplaceAllSingle(c, '\n', "\\n"); }
    if c == '\\' || c == ';' || c == ',' {
      ReplaceAllAbsent(s3, '\n', "\\n");
    }
    assert s4 == (if c != '\r' then e else [c]);
    if s4 == [c] { ReplaceAllSingle(c, '\r', "\\r"); }
    if c != '\r' {
      ReplaceAllAbsent(s4, '\r', "\\r");
    }
  }

  /**
   * Because backslashes are doubled first, the later passes never touch the
   * backslashes inserted by earlier ones: the chain of global replacements is the
   * same as escaping each character on its own.
   */
  lemma {:induction false} EscapeTextIsPerCharacter(s: string)
    ensures EscapeText(s) == EscapeEach(s)
  {
    if s != [] {
      assert s == [s[0]] + s[1..];
      ReplacementsArePasses(s);
      ReplacementsArePasses(s[1..]);
      PassesAppend([s[0]], s[1..]);
      PassesChar(s[0]);
      EscapeTextIsPerCharacter(s[1..]);
      if s[1..] == [] {
        assert Passes(s[1..]) == [];
      }
    }
  }

  lemma {:induction false} EscapeEachAppend(a: string, b: string)
    ensures EscapeEach(a + b) == EscapeEach(a) + EscapeEach(b)
  {
    if a != [] {
      assert (a + b)[1..] == a[1..] + b;
      EscapeEachAppend(a[1..], b);
    } else {
      assert a + b == b;
    }
  }

  lemma {:induction false} UnescapeEscapeEach(s: string)
    ensures Unescape(EscapeEach(s)) == s
    ensures WellEscaped(EscapeEach(s))
  {
    if s != [] {
      var e, rest := EscapeChar(s[0]), EscapeEach(s[1..]);
      UnescapeEscapeEach(s[1..]);
      var t := e + rest;
      if IsSpecial(s[0]) {
        assert t[0] == '\\' && t[2..] == rest;
      } else {
        assert t[1..] == rest;
      }
    }
  }

  /** Decoding the escaped text gives back the original text: escaping loses nothing. */
  lemma EscapeRoundTrip(s: string)
    ensures Unescape(EscapeText(s)) == s
  {
    EscapeTextIsPerCharacter(s);
    UnescapeEscapeEach(s);
  }

  /** No bare `;`, `,`, line feed or carriage return survives escaping, so a field cannot split a line or a value list. */
  lemma EscapeIsWellEscaped(s: string)
    ensures WellEscaped(EscapeText(s))
  {
    EscapeTextIsPerCharacter(s);
    UnescapeEscapeEach(s);
  }

  /** Well-escaped text holds no line break, so an escaped field stays on its line. */
  lemma {:induction false} WellEscapedHasNoBreaks(s: string)
    requires WellEscaped(s)
    ensures '\n' !in s && '\r' !in s
    decreases |s|
  {
    if s != [] {
      if s[0] == '\\' {
        WellEscapedHasNoBreaks(s[2..]);
        assert s == s[..2] + s[2..];
      } else {
        WellEscapedHasNoBreaks(s[1..]);
        assert s == [s[0]] + s[1..];
      }
    }
  }
}
