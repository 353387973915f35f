/** Byte strings and white space.

    A Go string is a sequence of bytes; here it is a Dafny string with one character per byte,
    so that `|s|` is the length in bytes.  White space beyond ASCII therefore shows up as the
    bytes of its UTF-8 encoding. */
module Text {

  predicate Continuation(c: char) {
    0x80 <= c as int < 0xC0
  }

  // The UTF-8 encodings of the white-space characters, as unicode.IsSpace has them, by their length.

  predicate Space1(a: char) {
    a == ' ' || 9 <= a as int <= 13
  }

  predicate Space2(a: char, b: char) {
    a as int == 0xC2 && (b as int == 0x85 || b as int == 0xA0)
  }

  predicate Space3(a: char, b: char, c: char) {
    var x, y, z := a as int, b as int, c as int;
    || (x == 0xE1 && y == 0x9A && z == 0x80)
    || (x == 0xE2 && y == 0x80 && (0x80 <= z <= 0x8A || z == 0xA8 || z == 0xA9 || z == 0xAF))
    || (x == 0xE2 && y == 0x81 && z == 0x9F)
    || (x == 0xE3 && y == 0x80 && z == 0x80)
  }

  /** The length of the white-space character at the front of `s`; 0 if there is none. */
  function FrontSpace(s: string): (n: nat)
    ensures n <= |s| && n <= 3
  {
    if |s| >= 1 && Space1(s[0]) then 1
    else if |s| >= 2 && Space2(s[0], s[1]) then 2
    else if |s| >= 3 && Space3(s[0], s[1], s[2]) then 3
    else 0
  }

  /** And at the end. */
  function BackSpace(s: string): (n: nat)
    ensures n <= |s| && n <= 3
  {
    var l := |s|;
    if l >= 1 && Space1(s[l - 1]) then 1
    else if l >= 2 && Space2(s[l - 2], s[l - 1]) then 2
    else if l >= 3 && Space3(s[l - 3], s[l - 2], s[l - 1]) then 3
    else 0
  }

  /** One white-space character. */
  predicate Space(w: string) {
    w != "" && FrontSpace(w) == |w|
  }

  predicate Scalar(cp: int) {
    0 <= cp < 0xD800 || 0xE000 <= cp <= 0x10_FFFF
  }

  /** The encoding of a code point: the table in section 3 of RFC 3629. */
  function Encode(cp: int): string
    requires Scalar(cp)
  {
    if cp < 0x80 then [cp as char]
    else if cp < 0x800 then [(0xC0 + cp / 64) as char, (0x80 + cp % 64) as char]
    else if cp < 0x1_0000 then
      [(0xE0 + cp / 4096) as char, (0x80 + cp / 64 % 64) as char, (0x80 + cp % 64) as char]
    else
      [(0xF0 + cp / 262144) as char, (0x80 + cp / 4096 % 64) as char, (0x80 + cp / 64 % 64) as char,
       (0x80 + cp % 64) as char]
  }

  /** The code points with the property White_Space. */
  predicate WhiteSpace(cp: int) {
    || 9 <= cp <= 13 || cp == 0x20 || cp == 0x85 || cp == 0xA0 || cp == 0x1680 || 0x2000 <= cp <= 0x200A
    || cp == 0x2028 || cp == 0x2029 || cp == 0x202F || cp == 0x205F || cp == 0x3000
  }

  lemma {:induction false} WhiteSpaceIsSpace(cp: int)
    requires WhiteSpace(cp)
    ensures Space(Encode(cp))
  {
  }

  lemma {:induction false} SpaceIsWhiteSpace(w: string) returns (cp: int)
    requires Space(w)
    ensures WhiteSpace(cp) && Encode(cp) == w
  {
    var a := w[0] as int;
    cp := if |w| == 1 then a
          else if |w| == 2 then w[1] as int
          else (a - 0xE0) * 4096 + (w[1] as int - 0x80) * 64 + (w[2] as int - 0x80);
  }

  /** A white-space character is exactly the encoding of such a code point. */
  lemma {:induction false} SpaceExactly(w: string)
    ensures Space(w) <==> exists cp :: WhiteSpace(cp) && Encode(cp) == w
  {
    hide Encode, Space;
    if Space(w) {
      var cp := SpaceIsWhiteSpace(w);
    }
    if exists cp :: WhiteSpace(cp) && Encode(cp) == w {
      var cp :| WhiteSpace(cp) && Encode(cp) == w;
      WhiteSpaceIsSpace(cp);
    }
  }

  function TrimLeft(s: string): string {
    var n := FrontSpace(s);
    if n == 0 then s else TrimLeft(s[n..])
  }

  function TrimRight(s: string): string {
    var n := BackSpace(s);
    if n == 0 then s else TrimRight(s[..|s| - n])
  }

  /** strings.TrimSpace */
  function Trim(s: string): string {
    TrimRight(TrimLeft(s))
  }

  /** Neither end of `s` is white space. */
  predicate Trimmed(s: string) {
    FrontSpace(s) == 0 && BackSpace(s) == 0
  }

  lemma {:induction false} TrimLeftSuffix(s: string)
    ensures |TrimLeft(s)| <= |s| && TrimLeft(s) == s[|s| - |TrimLeft(s)|..]
    ensures FrontSpace(TrimLeft(s)) == 0
    decreases |s|
  {
    hide FrontSpace;
    if FrontSpace(s) > 0 {
      var r := s[FrontSpace(s)..];
      TrimLeftSuffix(r);
      assert TrimLeft(s) == TrimLeft(r);
    }
  }

  lemma {:induction false} TrimRightPrefix(s: string)
    ensures |TrimRight(s)| <= |s| && TrimRight(s) == s[..|TrimRight(s)|]
    ensures BackSpace(TrimRight(s)) == 0
    decreases |s|
  {
    hide BackSpace;
    if BackSpace(s) > 0 {
      var r := s[..|s| - BackSpace(s)];
      TrimRightPrefix(r);
      assert TrimRight(s) == TrimRight(r);
    }
  }

  /** A prefix starts with white space only if the whole does. */
  lemma {:induction false} FrontSpacePrefix(s: string, m: nat)
    requires m <= |s| && FrontSpace(s) == 0
    ensures FrontSpace(s[..m]) == 0
  {
  }

  lemma {:induction false} TrimTrimmed(s: string)
    ensures Trimmed(Trim(s)) && |Trim(s)| <= |s|
  {
    hide FrontSpace, BackSpace, TrimLeft, TrimRight;
    var t := TrimLeft(s);
    TrimLeftSuffix(s);
    TrimRightPrefix(t);
    FrontSpacePrefix(t, |Trim(s)|);
  }

  lemma {:induction false} TrimmedStays(s: string)
    requires Trimmed(s)
    ensures Trim(s) == s
  {
  }

  lemma {:induction false} BackSpaceAppend(a: string, b: string)
    requires |a| > 0 && a[|a| - 1] == ':'
    ensures BackSpace(a + b) == BackSpace(b)
  {
  }

  /** Trimming the right end stops at a colon. */
  lemma {:induction false} TrimRightAppend(a: string, b: string)
    requires |a| > 0 && a[|a| - 1] == ':'
    ensures TrimRight(a + b) == a + TrimRight(b)
    decreases |b|
  {
    hide BackSpace;
    BackSpaceAppend(a, b);
    var n := BackSpace(b);
    if n > 0 {
      assert (a + b)[..|a + b| - n] == a + b[..|b| - n];
      TrimRightAppend(a, b[..|b| - n]);
    }
  }

  /** White space at the end does not change what trimming leaves. */
  lemma {:induction false} TrimLeftAppendSpace(s: string, w: string)
    requires Space(w)
    ensures if TrimLeft(s) == "" then TrimLeft(s + w) == "" else TrimLeft(s + w) == TrimLeft(s) + w
    decreases |s|
  {
    hide FrontSpace;
    var n := FrontSpace(s);
    if s == "" {
      assert s + w == w && w[|w|..] == "";
      TrimLeftNothing();
    } else {
      FrontSpaceAppend(s, w);
      if n > 0 {
        assert (s + w)[n..] == s[n..] + w;
        TrimLeftAppendSpace(s[n..], w);
      }
    }
  }

  lemma {:induction false} TrimLeftNothing()
    ensures TrimLeft("") == ""
  {
  }

  /** White space that is appended does not join what is there to another white-space character. */
  lemma {:induction false} FrontSpaceAppend(s: string, w: string)
    requires s != "" && Space(w)
    ensures FrontSpace(s + w) == FrontSpace(s)
  {
  }

  lemma {:induction false} SpaceAtEnd(s: string, w: string)
    requires Space(w)
    ensures BackSpace(s + w) == |w|
  {
  }

  lemma {:induction false} BackIsSpace(s: string)
    requires BackSpace(s) > 0
    ensures Space(s[|s| - BackSpace(s)..])
  {
  }

  lemma {:induction false} TrimRightSpace(s: string, w: string)
    requires Space(w)
    ensures TrimRight(s + w) == TrimRight(s)
  {
    hide BackSpace, Space;
    SpaceAtEnd(s, w);
    assert w != "" by { NotEmpty(w); }
    assert (s + w)[..|s + w| - |w|] == s;
  }

  lemma {:induction false} NotEmpty(w: string)
    requires Space(w)
    ensures w != ""
  {
  }

  /** Trimming the right end first makes no difference. */
  lemma {:induction false} TrimAfterTrimRight(s: string)
    ensures Trim(TrimRight(s)) == Trim(s)
    decreases |s|
  {
    hide BackSpace, Space, TrimLeft;
    var n := BackSpace(s);
    if n > 0 {
      var t, w := s[..|s| - n], s[|s| - n..];
      assert s == t + w;
      BackIsSpace(s);
      TrimAfterTrimRight(t);
      TrimLeftAppendSpace(t, w);
      if TrimLeft(t) != "" {
        TrimRightSpace(TrimLeft(t), w);
      }
    }
  }

  // ---------------------------------------------------------------- splitting

  /** strings.Split with a one-byte separator: always at least one piece. */
  function Split(s: string, sep: char): (r: seq<string>)
    ensures |r| >= 1
  {
    if s == "" then [""]
    else
      var rest := Split(s[1..], sep);
      if s[0] == sep then [""] + rest else [[s[0]] + rest[0]] + rest[1..]
  }

  /** The pieces that are followed by a separator, and the last piece. */
  function Complete(s: string, sep: char): seq<string> {
    var r := Split(s, sep); r[..|r| - 1]
  }

  function Rest(s: string, sep: char): string {
    var r := Split(s, sep); r[|r| - 1]
  }

  /** The pieces of `p` and `q` with the last of `p` and the first of `q` joined. */
  function Glue(p: seq<string>, q: seq<string>): seq<string>
    requires |p| >= 1 && |q| >= 1
  {
    p[..|p| - 1] + [p[|p| - 1] + q[0]] + q[1..]
  }

  lemma {:induction false} GlueCons(x: string, t: seq<string>, q: seq<string>)
    requires |t| >= 1 && |q| >= 1
    ensures Glue([x] + t, q) == [x] + Glue(t, q)
  {
  }

  lemma {:induction false} GlueFirst(c: char, t: seq<string>, q: seq<string>)
    requires |t| >= 1 && |q| >= 1
    ensures Glue([[c] + t[0]] + t[1..], q) == [[c] + Glue(t, q)[0]] + Glue(t, q)[1..]
  {
    if |t| == 1 {
      assert ([c] + t[0]) + q[0] == [c] + (t[0] + q[0]);
    } else {
      assert Glue(t, q)[0] == t[0];
    }
  }

  lemma {:induction false} SplitAppend(a: string, b: string, sep: char)
    ensures Split(a + b, sep) == Glue(Split(a, sep), Split(b, sep))
    decreases |a|
  {
    hide Glue;
    var q := Split(b, sep);
    if a == "" {
      GlueNothing(q);
      assert a + b == b;
    } else {
      SplitAppend(a[1..], b, sep);
      assert (a + b)[1..] == a[1..] + b;
      var t := Split(a[1..], sep);
      GlueCons("", t, q);
      GlueFirst(a[0], t, q);
    }
  }

  lemma {:induction false} GlueNothing(q: seq<string>)
    requires |q| >= 1
    ensures Glue([""], q) == q
  {
    assert "" + q[0] == q[0];
  }

  /** What comes after a cut continues the last piece before it. */
  lemma {:induction false} SplitAtCut(a: string, b: string, sep: char)
    ensures Complete(a + b, sep) == Complete(a, sep) + Complete(Rest(a, sep) + b, sep)
    ensures Rest(a + b, sep) == Rest(Rest(a, sep) + b, sep)
  {
    SplitAppend(a, b, sep);
    RestWhole(a, sep);
    SplitAppend(Rest(a, sep), b, sep);
  }

  lemma {:induction false} RestWhole(s: string, sep: char)
    ensures sep !in Rest(s, sep) && Split(Rest(s, sep), sep) == [Rest(s, sep)]
    decreases |s|
  {
    if s != "" {
      RestWhole(s[1..], sep);
      var r := Split(s[1..], sep);
      if |r| == 1 && s[0] != sep {
        WholePiece(Rest(s, sep), sep);
      }
    }
  }

  lemma {:induction false} WholePiece(s: string, sep: char)
    requires sep !in s
    ensures Split(s, sep) == [s]
    decreases |s|
  {
    if s != "" {
      assert s[0] in s;
      WholePiece(s[1..], sep);
      assert s == [s[0]] + s[1..];
    }
  }

  /** A line and its newline split into that line and what follows. */
  lemma {:induction false} SplitLine(line: string, b: string, sep: char)
    requires sep !in line
    ensures Split(line + [sep] + b, sep) == [line] + Split(b, sep)
  {
    WholePiece(line, sep);
    assert ([sep] + b)[1..] == b;
    SplitAppend(line, [sep] + b, sep);
    assert line + [sep] + b == line + ([sep] + b);
    assert line + "" == line;
  }
}
