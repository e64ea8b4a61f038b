/** What storing a JSON text inside another JSON document does to it: encoding/json drops the white space outside string
    literals and writes the characters HTML cares about as escapes. */
module Json {
  import opened Sums

  /** Where a scan stands: between tokens, inside a string literal, or just after a backslash in one. */
  datatype Mode = Outside | Inside | Escaped

  function Next(m: Mode, c: char): Mode {
    match m
    case Outside => if c == '"' then Inside else Outside
    case Inside => if c == '"' then Outside else if c == '\\' then Escaped else Inside
    case Escaped => Inside
  }

  predicate IsSpace(c: char) { c in {' ', '\t', '\r', '\n'} }

  /** The characters written as escapes. */
  predicate Risky(c: char) { c == '<' || c == '>' || c == '&' || c == '\U{2028}' || c == '\U{2029}' }

  function EscapeOf(c: char): (p: string)
    requires Risky(c)
    ensures |p| == 6
  {
    match c
    case '<' => "\\u003c"
    case '>' => "\\u003e"
    case '&' => "\\u0026"
    case '\U{2028}' => "\\u2028"
    case _ => "\\u2029"
  }

  /** What one character becomes. */
  function Piece(m: Mode, c: char): string {
    if m == Outside && IsSpace(c) then "" else if Risky(c) then EscapeOf(c) else [c]
  }

  function CompactFrom(m: Mode, s: string): string
    decreases |s|
  {
    if s == "" then "" else Piece(m, s[0]) + CompactFrom(Next(m, s[0]), s[1..])
  }

  function Compact(s: string): string { CompactFrom(Outside, s) }

  /** The mode after reading s. */
  function After(m: Mode, s: string): Mode
    decreases |s|
  {
    if s == "" then m else After(Next(m, s[0]), s[1..])
  }

  /** No character of s is dropped or rewritten: no white space between tokens, nothing to escape. */
  ghost predicate Tight(m: Mode, s: string) {
    forall i | 0 <= i < |s| :: !(After(m, s[..i]) == Outside && IsSpace(s[i])) && !Risky(s[i])
  }

  // ---- composition ----

  lemma {:induction false} AfterConcat(m: Mode, s: string, t: string)
    ensures After(m, s + t) == After(After(m, s), t)
    decreases |s|
  {
    if s == "" {
      assert s + t == t;
    } else {
      assert (s + t)[1..] == s[1..] + t;
      AfterConcat(Next(m, s[0]), s[1..], t);
    }
  }

  lemma {:induction false} CompactConcat(m: Mode, s: string, t: string)
    ensures CompactFrom(m, s + t) == CompactFrom(m, s) + CompactFrom(After(m, s), t)
    decreases |s|
  {
    if s == "" {
      assert s + t == t;
    } else {
      assert (s + t)[1..] == s[1..] + t;
      CompactConcat(Next(m, s[0]), s[1..], t);
    }
  }

  lemma {:induction false} TightCompact(m: Mode, s: string)
    requires Tight(m, s)
    ensures CompactFrom(m, s) == s
    decreases |s|
  {
    if s != "" {
      assert s[..0] == "";
      TightTail(m, s);
      TightCompact(Next(m, s[0]), s[1..]);
    }
  }

  lemma TightTail(m: Mode, s: string)
    requires s != ""
    ensures Tight(m, s) <==> Piece(m, s[0]) == [s[0]] && !Risky(s[0]) && Tight(Next(m, s[0]), s[1..])
  {
    var t := s[1..];
    assert s[..0] == "";
    forall i | 0 <= i < |t|
      ensures After(Next(m, s[0]), t[..i]) == After(m, s[..i + 1]) && t[i] == s[i + 1]
    {
      assert s[..i + 1][1..] == t[..i];
    }
    if Piece(m, s[0]) == [s[0]] && !Risky(s[0]) && Tight(Next(m, s[0]), t) {
      forall i | 0 <= i < |s|
        ensures !(After(m, s[..i]) == Outside && IsSpace(s[i])) && !Risky(s[i])
      {
        if i > 0 {
          assert t[i - 1] == s[i];
        }
      }
    }
  }

  // ---- exactness ----

  /** Nothing compaction writes between tokens starts with white space. */
  lemma {:induction false} NoLeadingSpace(s: string)
    ensures Compact(s) != "" ==> !IsSpace(Compact(s)[0])
  {
    if s != "" && IsSpace(s[0]) {
      NoLeadingSpace(s[1..]);
    }
  }

  lemma {:induction false} CompactTight(m: Mode, s: string)
    requires CompactFrom(m, s) == s
    ensures Tight(m, s)
    decreases |s|
  {
    if s != "" {
      var rest := CompactFrom(Next(m, s[0]), s[1..]);
      if m == Outside && IsSpace(s[0]) {
        assert Compact(s) == Compact(s[1..]);
        NoLeadingSpace(s[1..]);
      } else {
        assert CompactFrom(m, s)[0] == Piece(m, s[0])[0];
        assert Piece(m, s[0]) == [s[0]];
        assert s[1..] == rest;
        CompactTight(Next(m, s[0]), s[1..]);
        TightTail(m, s);
      }
    }
  }

  /** Compaction leaves a text alone exactly when it has no white space between tokens and nothing to escape. */
  lemma VerbatimIff(s: string)
    ensures Compact(s) == s <==> Tight(Outside, s)
  {
    if Tight(Outside, s) {
      TightCompact(Outside, s);
    }
    if Compact(s) == s {
      CompactTight(Outside, s);
    }
  }

  lemma PieceStands(m: Mode, c: char)
    ensures CompactFrom(m, Piece(m, c)) == Piece(m, c) && After(m, Piece(m, c)) == Next(m, c)
  {
    var p := Piece(m, c);
    if p != "" && Risky(c) {
      EscapeStands(m, p);
    } else if p != "" {
      assert p[1..] == "";
    }
  }

  predicate Plain(c: char) { !Risky(c) && !IsSpace(c) && c != '"' && c != '\\' }

  lemma {:induction false} PlainStands(m: Mode, p: string)
    requires m != Escaped && forall i | 0 <= i < |p| :: Plain(p[i])
    ensures CompactFrom(m, p) == p && After(m, p) == m
  {
    if p != "" {
      PlainStands(m, p[1..]);
    }
  }

  /** A six-character escape is read back as it is, and leaves the scan where a plain character would. */
  lemma EscapeStands(m: Mode, p: string)
    requires |p| >= 2 && p[0] == '\\' && forall i | 1 <= i < |p| :: Plain(p[i])
    ensures CompactFrom(m, p) == p && After(m, p) == (if m == Outside then Outside else Inside)
  {
    var p1, n := p[1..], Next(m, p[0]);
    assert p1[1..] == p[2..] && p == [p[0]] + p1 && p1 == [p[1]] + p[2..];
    PlainStands(Next(n, p1[0]), p[2..]);
  }

  lemma {:induction false} CompactAgain(m: Mode, s: string)
    ensures CompactFrom(m, CompactFrom(m, s)) == CompactFrom(m, s)
    decreases |s|
  {
    if s != "" {
      var p, n := Piece(m, s[0]), Next(m, s[0]);
      CompactAgain(n, s[1..]);
      PieceStands(m, s[0]);
      CompactConcat(m, p, CompactFrom(n, s[1..]));
    }
  }

  /** A text read back and stored once more does not change again. */
  lemma CompactIsIdempotent(s: string)
    ensures Compact(Compact(s)) == Compact(s) && Tight(Outside, Compact(s))
  {
    CompactAgain(Outside, s);
    VerbatimIff(Compact(s));
  }

  /** The encoder ends every body with a newline, which never survives: no such body comes back verbatim, and one that
      was tight before it comes back without it. */
  lemma NewlineIsLost(s: string)
    requires After(Outside, s) == Outside
    ensures Compact(s + "\n") == Compact(s) && Compact(s + "\n") != s + "\n"
    ensures Tight(Outside, s) ==> Compact(s + "\n") == s
  {
    var t := s + "\n";
    CompactConcat(Outside, s, "\n");
    VerbatimIff(s);
    VerbatimIff(t);
    assert t[..|s|] == s;
    assert t[|s|] == '\n' && After(Outside, t[..|s|]) == Outside;
  }

  /** What the next character adds: between tokens exactly the space, the tab, the carriage return and the line feed
      are dropped; in a literal five characters are written as escapes and every other one as it is. */
  lemma NextCharacter(s: string, c: char)
    ensures After(Outside, s) == Outside ==>
              (Compact(s + [c]) == Compact(s) <==> c == ' ' || c == '\t' || c == '\r' || c == '\n')
    ensures After(Outside, s) != Outside && c != '<' && c != '>' && c != '&' && c != '\U{2028}' && c != '\U{2029}' ==>
              Compact(s + [c]) == Compact(s) + [c]
    ensures After(Outside, s) != Outside ==>
              && (c == '<' ==> Compact(s + [c]) == Compact(s) + "\\u003c")
              && (c == '>' ==> Compact(s + [c]) == Compact(s) + "\\u003e")
              && (c == '&' ==> Compact(s + [c]) == Compact(s) + "\\u0026")
              && (c == '\U{2028}' ==> Compact(s + [c]) == Compact(s) + "\\u2028")
              && (c == '\U{2029}' ==> Compact(s + [c]) == Compact(s) + "\\u2029")
  {
    CompactConcat(Outside, s, [c]);
    AfterOne(After(Outside, s), c);
  }

  // ---- meaning ----

  /** What a reader of the text sees: structure, the characters of string literals, and their other escapes. */
  datatype Symbol = Mark(c: char) | Text(c: char) | Pair(c: char)

  /** The character the escape at the front of the text stands for, if it is one of those compaction writes. */
  function Leading(s: string): Option<char> {
    if |s| < 6 || s[0] != '\\' || s[1] != 'u' then None
    else if s[2] == '0' && s[3] == '0' && s[4] == '3' && s[5] == 'c' then Some('<')
    else if s[2] == '0' && s[3] == '0' && s[4] == '3' && s[5] == 'e' then Some('>')
    else if s[2] == '0' && s[3] == '0' && s[4] == '2' && s[5] == '6' then Some('&')
    else if s[2] == '2' && s[3] == '0' && s[4] == '2' && s[5] == '8' then Some('\U{2028}')
    else if s[2] == '2' && s[3] == '0' && s[4] == '2' && s[5] == '9' then Some('\U{2029}')
    else None
  }

  function Symbols(inside: bool, s: string): seq<Symbol>
    decreases |s|
  {
    if s == "" then []
    else if !inside then
      if IsSpace(s[0]) then Symbols(false, s[1..]) else [Mark(s[0])] + Symbols(s[0] == '"', s[1..])
    else if Leading(s).Some? then [Text(Leading(s).value)] + Symbols(true, s[6..])
    else if s[0] == '\\' && |s| >= 2 then [Pair(s[1])] + Symbols(true, s[2..])
    else if s[0] == '"' then [Mark('"')] + Symbols(false, s[1..])
    else [Text(s[0])] + Symbols(true, s[1..])
  }

  function ModeOf(inside: bool): Mode { if inside then Inside else Outside }

  /** As in every JSON text: the characters to escape occur in string literals only, and not after a backslash. */
  ghost predicate EscapesInStrings(m: Mode, s: string) {
    forall i | 0 <= i < |s| && Risky(s[i]) :: After(m, s[..i]) == Inside
  }

  lemma EscapesInTail(m: Mode, s: string, k: nat)
    requires EscapesInStrings(m, s) && k <= |s|
    ensures EscapesInStrings(After(m, s[..k]), s[k..])
  {
    forall i | 0 <= i < |s[k..]| && Risky(s[k..][i])
      ensures After(After(m, s[..k]), s[k..][..i]) == Inside
    {
      assert s[..k] + s[k..][..i] == s[..k + i];
      AfterConcat(m, s[..k], s[k..][..i]);
    }
  }

  /** Inside a literal, plain characters at the front of the compacted text stood at the front of the text. */
  lemma {:induction false} PlainPrefix(t: string, n: nat)
    requires n <= |CompactFrom(Inside, t)| && forall i | 0 <= i < n :: Plain(CompactFrom(Inside, t)[i])
    ensures n <= |t| && t[..n] == CompactFrom(Inside, t)[..n]
    decreases n
  {
    if n > 0 {
      var u := CompactFrom(Inside, t);
      assert u[0] == Piece(Inside, t[0])[0];
      assert !Risky(t[0]);
      var v := CompactFrom(Inside, t[1..]);
      assert u == [t[0]] + v;
      assert forall i | 0 <= i < n - 1 :: v[i] == u[i + 1];
      PlainPrefix(t[1..], n - 1);
    }
  }

  /** A backslash and the character after it are kept as they are. */
  lemma PairKept(s: string)
    requires |s| >= 2 && s[0] == '\\' && !Risky(s[1])
    ensures CompactFrom(Inside, s) == [s[0], s[1]] + CompactFrom(Inside, s[2..])
  {
    assert s[1..][1..] == s[2..];
    assert CompactFrom(Inside, s) == [s[0]] + CompactFrom(Escaped, s[1..]);
  }

  /** They do not become one of the escapes compaction writes. */
  lemma NoNewEscape(s: string, rest: string)
    requires |s| >= 2 && rest == CompactFrom(Inside, s[2..]) && Leading([s[0], s[1]] + rest).Some?
    ensures Leading(s).Some?
  {
    var u := [s[0], s[1]] + rest;
    assert forall i | 0 <= i < 4 :: rest[i] == u[i + 2] && Plain(rest[i]);
    PlainPrefix(s[2..], 4);
    assert forall i | 0 <= i < 4 :: s[2..][..4][i] == rest[..4][i];
    assert s[2] == u[2] && s[3] == u[3] && s[4] == u[4] && s[5] == u[5];
  }

  lemma EscapeKept(s: string)
    requires Leading(s).Some?
    ensures CompactFrom(Inside, s) == s[..6] + CompactFrom(Inside, s[6..])
    ensures After(Inside, s[..6]) == Inside && CompactFrom(Inside, s[..6]) == s[..6]
  {
    var e := s[..6];
    assert s == e + s[6..];
    EscapeStands(Inside, e);
    CompactConcat(Inside, e, s[6..]);
  }

  /** The text after its first k characters, all of one symbol, and what they are compacted to. */
  lemma SymbolStep(inside: bool, s: string, k: nat, next: bool, p: string)
    requires EscapesInStrings(ModeOf(inside), s) && 0 < k <= |s| && After(ModeOf(inside), s[..k]) == ModeOf(next)
    requires CompactFrom(ModeOf(inside), s[..k]) == p
    ensures EscapesInStrings(ModeOf(next), s[k..])
    ensures CompactFrom(ModeOf(inside), s) == p + CompactFrom(ModeOf(next), s[k..])
  {
    EscapesInTail(ModeOf(inside), s, k);
    assert s == s[..k] + s[k..];
    CompactConcat(ModeOf(inside), s[..k], s[k..]);
  }

  lemma AfterOne(m: Mode, c: char)
    ensures After(m, [c]) == Next(m, c) && CompactFrom(m, [c]) == Piece(m, c)
  {
    assert [c][1..] == "";
  }

  lemma {:induction false} SameSymbols(inside: bool, s: string)
    requires EscapesInStrings(ModeOf(inside), s)
    ensures Symbols(inside, CompactFrom(ModeOf(inside), s)) == Symbols(inside, s)
    decreases |s|, 1
  {
    if s != "" {
      if inside && Leading(s).Some? {
        SameAfterEscape(s);
      } else if inside && s[0] == '\\' && |s| >= 2 {
        SameAfterPair(s);
      } else {
        SameAfterOne(inside, s);
      }
    }
  }

  lemma {:induction false} SameAfterEscape(s: string)
    requires EscapesInStrings(Inside, s) && Leading(s).Some?
    ensures Symbols(true, CompactFrom(Inside, s)) == Symbols(true, s)
    decreases |s|, 0
  {
    EscapeKept(s);
    SymbolStep(true, s, 6, true, s[..6]);
    SameSymbols(true, s[6..]);
    var u := CompactFrom(Inside, s);
    assert u[..6] == s[..6] && u[6..] == CompactFrom(Inside, s[6..]);
  }

  lemma {:induction false} SameAfterPair(s: string)
    requires EscapesInStrings(Inside, s) && |s| >= 2 && s[0] == '\\' && Leading(s).None?
    ensures Symbols(true, CompactFrom(Inside, s)) == Symbols(true, s)
    decreases |s|, 0
  {
    assert s[..1] == [s[0]];
    AfterOne(Inside, s[0]);
    assert !Risky(s[1]);
    EscapesInTail(Inside, s, 1);
    EscapesInTail(Escaped, s[1..], 1);
    assert s[1..][..1] == [s[1]] && s[1..][1..] == s[2..];
    AfterOne(Escaped, s[1]);
    PairKept(s);
    SameSymbols(true, s[2..]);
    var u, rest := CompactFrom(Inside, s), CompactFrom(Inside, s[2..]);
    if Leading(u).Some? {
      NoNewEscape(s, rest);
    }
    assert u[2..] == rest;
  }

  lemma {:induction false} SameAfterOne(inside: bool, s: string)
    requires EscapesInStrings(ModeOf(inside), s) && s != ""
    requires inside ==> Leading(s).None? && (s[0] == '\\' ==> |s| == 1)
    ensures Symbols(inside, CompactFrom(ModeOf(inside), s)) == Symbols(inside, s)
    decreases |s|, 0
  {
    var m, c := ModeOf(inside), s[0];
    assert s[..0] == "" && s[..1] == [c];
    assert Risky(c) ==> After(m, s[..0]) == Inside;
    AfterOne(m, c);
    var u := CompactFrom(m, s);
    if inside && c == '\\' {
      assert s == [c] && u == s;
    } else {
      var next := Next(m, c) == Inside;
      SymbolStep(inside, s, 1, next, Piece(m, c));
      SameSymbols(next, s[1..]);
      var rest := CompactFrom(ModeOf(next), s[1..]);
      if Risky(c) {
        LeadingEscape(c, rest);
      } else if inside || !IsSpace(c) {
        assert u[0] == c && u[1..] == rest;
      } else {
        assert u == rest;
      }
    }
  }

  lemma LeadingEscape(c: char, rest: string)
    requires Risky(c)
    ensures Leading(EscapeOf(c) + rest) == Some(c) && (EscapeOf(c) + rest)[6..] == rest
  {
    var e := EscapeOf(c);
    assert forall i | 0 <= i < 6 :: (e + rest)[i] == e[i];
  }

  /** Compaction keeps the meaning of every JSON text. */
  lemma CompactKeepsMeaning(s: string)
    requires EscapesInStrings(Outside, s)
    ensures Symbols(false, Compact(s)) == Symbols(false, s)
  {
    SameSymbols(false, s);
  }
}
