/** The bounded snapshot of a response: internal/executor/response_capture.go.  Bytes go to the client
    and, up to a cap, into a buffer; what is cut off at the end of the buffer is trimmed to whole
    runes of UTF-8 (section 3 of RFC 3629). */
module ResponseCaptures {
  import opened Text
  import opened Decimal

  // ---------------------------------------------------------------- the buffer

  /** `cap <= 0` stands for no cap. */
  datatype Snapshot = Snapshot(body: string, total: nat, truncated: bool, wrote: bool)

  const NOTHING := Snapshot("", 0, false, false)

  /** captureBounded on bytes that the client's writer accepted. */
  function Capture(s: Snapshot, b: string, cap: int): Snapshot {
    var s1 := s.(total := s.total + |b|);
    if cap <= 0 then s1.(body := s1.body + b)
    else
      var remaining := cap - |s1.body|;
      if remaining <= 0 then s1.(truncated := true)
      else if |b| > remaining then s1.(body := s1.body + b[..remaining], truncated := true)
      else s1.(body := s1.body + b)
  }

  /** One write: `b` is offered, `n` bytes of it are accepted. */
  datatype Attempt = Attempt(b: string, n: int)

  function Accepted(a: Attempt): string {
    if 0 < a.n <= |a.b| then a.b[..a.n] else ""
  }

  function Written(s: Snapshot, a: Attempt, cap: int): Snapshot {
    if Accepted(a) == "" then s else Capture(s, Accepted(a), cap).(wrote := true)
  }

  function WriteAll(attempts: seq<Attempt>, cap: int): Snapshot {
    if attempts == [] then NOTHING
    else Written(WriteAll(attempts[..|attempts| - 1], cap), attempts[|attempts| - 1], cap)
  }

  /** What the client has got. */
  function AllAccepted(attempts: seq<Attempt>): string {
    if attempts == [] then ""
    else
      var last := attempts[|attempts| - 1];
      AllAccepted(attempts[..|attempts| - 1]) + (if 0 < last.n <= |last.b| then last.b[..last.n] else "")
  }

  function Upto(s: string, cap: int): string {
    if cap <= 0 || |s| <= cap then s else s[..cap]
  }

  /** After any writes, short ones included, the buffer holds the first bytes that were accepted,
      up to the cap, and knows whether there were more. */
  lemma {:induction false} BufferIsPrefix(attempts: seq<Attempt>, cap: int)
    ensures var s, sent := WriteAll(attempts, cap), AllAccepted(attempts);
            && s.body == Upto(sent, cap) && s.total == |sent|
            && (s.truncated <==> cap > 0 && s.total > cap)
            && (s.wrote <==> sent != "")
    decreases |attempts|
  {
    if attempts != [] {
      var before, a := attempts[..|attempts| - 1], attempts[|attempts| - 1];
      BufferIsPrefix(before, cap);
      CaptureExtends(WriteAll(before, cap), AllAccepted(before), Accepted(a), cap);
    }
  }

  lemma {:induction false} CaptureExtends(s: Snapshot, sent: string, b: string, cap: int)
    requires s.body == Upto(sent, cap) && s.total == |sent| && (s.truncated <==> cap > 0 && |sent| > cap)
    ensures var s' := Capture(s, b, cap);
            && (b == "" || s'.body == Upto(sent + b, cap)) && s'.total == |sent + b|
            && (b == "" || (s'.truncated <==> cap > 0 && |sent + b| > cap))
            && s'.wrote == s.wrote
    ensures b == "" ==> sent + b == sent
  {
    if cap > 0 && |sent + b| > cap {
      if |sent| >= cap {
        assert (sent + b)[..cap] == sent[..cap];
        assert |sent| == cap ==> sent[..cap] == sent;
      } else {
        assert (sent + b)[..cap] == sent + b[..cap - |sent|];
      }
    }
  }

  // ---------------------------------------------------------------- UTF-8

  /** The length of the rune that the bytes start with; 0 if they start with none. */
  function RuneLength(s: string): (n: nat)
    ensures n <= 4 && n <= |s|
  {
    if s == "" then 0
    else
      var a := s[0] as int;
      if a < 0x80 then 1
      else if 0xC2 <= a <= 0xDF then (if |s| >= 2 && Continuation(s[1]) then 2 else 0)
      else if 0xE0 <= a <= 0xEF then (if |s| >= 3 && Second(a, s[1] as int) && Continuation(s[2]) then 3 else 0)
      else if 0xF0 <= a <= 0xF4 then
        (if |s| >= 4 && Second(a, s[1] as int) && Continuation(s[2]) && Continuation(s[3]) then 4 else 0)
      else 0
  }

  /** The second byte is a continuation byte, and in four cases not any. */
  predicate Second(a: int, b: int) {
    && 0x80 <= b <= 0xBF
    && (a == 0xE0 ==> b >= 0xA0) && (a == 0xED ==> b <= 0x9F)
    && (a == 0xF0 ==> b >= 0x90) && (a == 0xF4 ==> b <= 0x8F)
  }

  predicate ValidUtf8(s: string)
    decreases |s|
  {
    s == "" || (RuneLength(s) > 0 && ValidUtf8(s[RuneLength(s)..]))
  }

  lemma {:induction false} TwoParts(x: nat, z: nat)
    requires z < 64
    ensures (x * 64 + z) / 64 == x && (x * 64 + z) % 64 == z
  {
  }

  lemma {:induction false} ThreeParts(x: nat, y: nat, z: nat)
    requires y < 64 && z < 64
    ensures var cp := x * 4096 + y * 64 + z; cp / 4096 == x && cp / 64 % 64 == y && cp % 64 == z
  {
    TwoParts(x * 64 + y, z);
    TwoParts(x, y);
    assert x * 4096 + y * 64 + z == (x * 64 + y) * 64 + z;
    assert (x * 4096 + (y * 64 + z)) / 4096 == x;
  }

  lemma {:induction false} FourParts(w: nat, x: nat, y: nat, z: nat)
    requires x < 64 && y < 64 && z < 64
    ensures var cp := w * 262144 + x * 4096 + y * 64 + z;
            cp / 262144 == w && cp / 4096 % 64 == x && cp / 64 % 64 == y && cp % 64 == z
  {
    ThreeParts(w * 64 + x, y, z);
    TwoParts(w, x);
    assert w * 262144 + x * 4096 + y * 64 + z == (w * 64 + x) * 4096 + y * 64 + z;
    assert (w * 262144 + (x * 4096 + y * 64 + z)) / 262144 == w;
  }

  lemma {:induction false} Parts(cp: nat)
    ensures cp == cp / 64 * 64 + cp % 64
    ensures cp == cp / 4096 * 4096 + cp / 64 % 64 * 64 + cp % 64
    ensures cp == cp / 262144 * 262144 + cp / 4096 % 64 * 4096 + cp / 64 % 64 * 64 + cp % 64
  {
    var a := cp / 64;
    var b := a / 64;
    assert b == cp / 4096 && b / 64 == cp / 262144;
    assert a == b * 64 + a % 64 && b == b / 64 * 64 + b % 64;
  }

  lemma {:induction false} ShortIsRune(cp: nat, rest: string)
    requires cp < 0x800
    ensures RuneLength(Encode(cp) + rest) == |Encode(cp)|
  {
    var e, s := Encode(cp), Encode(cp) + rest;
    assert s[0] == e[0] && (|e| > 1 ==> s[1] == e[1]);
  }

  lemma {:induction false} ThreeIsRune(cp: nat, rest: string)
    requires 0x800 <= cp < 0x1_0000 && Scalar(cp)
    ensures RuneLength(Encode(cp) + rest) == 3 == |Encode(cp)|
  {
    var x, y, z := cp / 4096, cp / 64 % 64, cp % 64;
    Parts(cp);
    var e, s := Encode(cp), Encode(cp) + rest;
    assert x < 16 && (x == 0 ==> y >= 32) && (x == 13 ==> y < 32);
    assert s[0] == e[0] && s[1] == e[1] && s[2] == e[2];
    assert e[0] as int == 0xE0 + x && e[1] as int == 0x80 + y && e[2] as int == 0x80 + z;
  }

  lemma {:induction false} FourIsRune(cp: nat, rest: string)
    requires 0x1_0000 <= cp && Scalar(cp)
    ensures RuneLength(Encode(cp) + rest) == 4 == |Encode(cp)|
  {
    var w, x, y, z := cp / 262144, cp / 4096 % 64, cp / 64 % 64, cp % 64;
    Parts(cp);
    var e, s := Encode(cp), Encode(cp) + rest;
    assert w <= 4 && (w == 0 ==> x >= 16) && (w == 4 ==> x < 16);
    assert s[0] == e[0] && s[1] == e[1] && s[2] == e[2] && s[3] == e[3];
    assert e[0] as int == 0xF0 + w && e[1] as int == 0x80 + x && e[2] as int == 0x80 + y && e[3] as int == 0x80 + z;
  }

  lemma {:induction false} EncodedIsRune(cp: int, rest: string)
    requires Scalar(cp)
    ensures RuneLength(Encode(cp) + rest) == |Encode(cp)|
  {
    hide RuneLength, Encode;
    if cp < 0x800 {
      ShortIsRune(cp, rest);
    } else if cp < 0x1_0000 {
      ThreeIsRune(cp, rest);
    } else {
      FourIsRune(cp, rest);
    }
  }

  lemma {:induction false} ShortRuneEncoded(s: string) returns (cp: int)
    requires 0 < RuneLength(s) <= 2
    ensures Scalar(cp) && Encode(cp) == s[..RuneLength(s)]
  {
    if RuneLength(s) == 1 {
      cp := s[0] as int;
    } else {
      cp := (s[0] as int - 0xC0) * 64 + (s[1] as int - 0x80);
      TwoParts(s[0] as int - 0xC0, s[1] as int - 0x80);
    }
  }

  lemma {:induction false} ThreeRuneEncoded(s: string) returns (cp: int)
    requires RuneLength(s) == 3
    ensures Scalar(cp) && Encode(cp) == s[..3]
  {
    var x, y, z := s[0] as int - 0xE0, s[1] as int - 0x80, s[2] as int - 0x80;
    cp := x * 4096 + y * 64 + z;
    ThreeParts(x, y, z);
    assert 0x800 <= cp < 0x1_0000;
  }

  lemma {:induction false} FourRuneEncoded(s: string) returns (cp: int)
    requires RuneLength(s) == 4
    ensures Scalar(cp) && Encode(cp) == s[..4]
  {
    var w, x, y, z := s[0] as int - 0xF0, s[1] as int - 0x80, s[2] as int - 0x80, s[3] as int - 0x80;
    cp := w * 262144 + x * 4096 + y * 64 + z;
    FourParts(w, x, y, z);
    assert 0x1_0000 <= cp <= 0x10_FFFF;
  }

  lemma {:induction false} RuneIsEncoded(s: string) returns (cp: int)
    requires RuneLength(s) > 0
    ensures Scalar(cp) && Encode(cp) == s[..RuneLength(s)]
  {
    hide Encode;
    if RuneLength(s) <= 2 {
      cp := ShortRuneEncoded(s);
    } else if RuneLength(s) == 3 {
      cp := ThreeRuneEncoded(s);
    } else {
      cp := FourRuneEncoded(s);
    }
  }

  /** A rune is exactly the encoding of a code point. */
  lemma {:induction false} RuneExactly(s: string, n: nat)
    requires n > 0
    ensures RuneLength(s) == n <==> n <= |s| && exists cp :: Scalar(cp) && Encode(cp) == s[..n]
  {
    hide RuneLength, Encode;
    if RuneLength(s) == n {
      var cp := RuneIsEncoded(s);
    }
    if n <= |s| && exists cp :: Scalar(cp) && Encode(cp) == s[..n] {
      var cp :| Scalar(cp) && Encode(cp) == s[..n];
      EncodedIsRune(cp, s[n..]);
      assert s[..n] + s[n..] == s;
    }
  }

  // ---------------------------------------------------------------- trimming

  /** From the i-th byte from the end on. */
  function TrimFrom(b: string, i: nat): string
    decreases 4 - i
  {
    if i >= 4 || i >= |b| then b
    else
      var start := |b| - 1 - i;
      if Continuation(b[start]) then TrimFrom(b, i + 1)
      else
        var n := RuneLength(b[start..]);
        if n > 0 && start + n == |b| then b else b[..start]
  }

  function TrimTrailingPartialRune(b: string): string {
    TrimFrom(b, 0)
  }

  method TrimPartialRune(b: string) returns (r: string)
    ensures r == TrimTrailingPartialRune(b)
  {
    var i := 0;
    while i < 4 && i < |b|
      invariant 0 <= i <= 4 && TrimFrom(b, i) == TrimFrom(b, 0)
    {
      var start := |b| - 1 - i;
      if Continuation(b[start]) {
        i := i + 1;
        continue;
      }
      var size := RuneLength(b[start..]);
      if size > 0 && start + size == |b| {
        return b;
      }
      return b[..start];
    }
    return b;
  }

  /** The end of the last whole rune within the first `m` bytes. */
  function Boundary(s: string, m: nat): (q: nat)
    requires ValidUtf8(s) && m <= |s|
    ensures q <= m
    decreases |s|
  {
    var n := RuneLength(s);
    if s == "" || n > m then 0 else n + Boundary(s[n..], m - n)
  }

  lemma {:induction false} RuneOfPrefix(s: string, k: nat)
    requires 0 < k <= |s| && RuneLength(s) > 0
    ensures RuneLength(s[..k]) == if RuneLength(s) <= k then RuneLength(s) else 0
  {
  }

  lemma {:induction false} RuneInside(s: string)
    requires RuneLength(s) > 0
    ensures !Continuation(s[0]) && forall k :: 1 <= k < RuneLength(s) ==> Continuation(s[k])
  {
  }

  lemma {:induction false} BoundaryValid(s: string, m: nat)
    requires ValidUtf8(s) && m <= |s|
    ensures ValidUtf8(s[..Boundary(s, m)])
    decreases |s|
  {
    var n := RuneLength(s);
    if s != "" && n <= m {
      var q := Boundary(s[n..], m - n);
      BoundaryValid(s[n..], m - n);
      RuneOfPrefix(s, n + q);
      assert s[..n + q][n..] == s[n..][..q];
    }
  }

  /** No longer prefix is made of whole runes. */
  lemma {:induction false} BoundaryLongest(s: string, m: nat, k: nat)
    requires ValidUtf8(s) && k <= m <= |s| && ValidUtf8(s[..k])
    ensures k <= Boundary(s, m)
    decreases |s|
  {
    if k > 0 {
      var n := RuneLength(s);
      RuneOfPrefix(s, k);
      assert s[..k][n..] == s[n..][..k - n];
      BoundaryLongest(s[n..], m - n, k - n);
    }
  }

  /** Trimming looks only at the last rune. */
  lemma {:induction false} TrimSuffix(a: string, b: string, i: nat)
    requires exists k :: 0 <= k < |b| && |b| - 1 - k >= i && |b| - 1 - k < 4 && !Continuation(b[k])
    ensures TrimFrom(a + b, i) == a + TrimFrom(b, i)
    decreases 4 - i
  {
    hide RuneLength, Continuation;
    var k :| 0 <= k < |b| && |b| - 1 - k >= i && |b| - 1 - k < 4 && !Continuation(b[k]);
    var c, start := a + b, |b| - 1 - i;
    assert c[|a| + start] == b[start];
    if Continuation(b[start]) {
      assert k != start;
      TrimSuffix(a, b, i + 1);
    } else {
      assert c[|a| + start..] == b[start..];
      assert c[..|a| + start] == a + b[..start];
    }
  }

  lemma {:induction false} TrimInside(b: string, i: nat)
    requires b != "" && |b| <= 4 && i < |b| && !Continuation(b[0])
    requires forall k :: 1 <= k < |b| ==> Continuation(b[k])
    ensures TrimFrom(b, i) == if RuneLength(b) == |b| then b else ""
    decreases 4 - i
  {
    if i < |b| - 1 {
      TrimInside(b, i + 1);
    } else {
      assert b[0..] == b;
    }
  }

  /** Of a buffer that is a prefix of valid UTF-8 the longest prefix of whole runes is left. */
  lemma {:induction false} TrimIsBoundary(s: string, m: nat)
    requires ValidUtf8(s) && m <= |s|
    ensures TrimTrailingPartialRune(s[..m]) == s[..Boundary(s, m)] && m - Boundary(s, m) <= 3
    decreases |s|
  {
    hide RuneLength, Continuation, TrimFrom;
    var n := RuneLength(s);
    if m == 0 {
      assert s[..0] == "" && TrimFrom("", 0) == "" by { TrimNothing(); }
    } else if n >= m {
      TrimFirst(s, m);
    } else {
      var rest, q := s[n..], Boundary(s[n..], m - n);
      TrimIsBoundary(rest, m - n);
      var a, b := s[..n], rest[..m - n];
      assert s[..m] == a + b;
      StartNearEnd(rest, m - n);
      TrimSuffix(a, b, 0);
      assert s[..n + q] == a + rest[..q];
    }
  }

  lemma {:induction false} TrimNothing()
    ensures TrimFrom("", 0) == ""
  {
  }

  /** Of one rune, whole or not. */
  lemma {:induction false} TrimFirst(s: string, m: nat)
    requires ValidUtf8(s) && 0 < m <= |s| && RuneLength(s) >= m
    ensures TrimTrailingPartialRune(s[..m]) == s[..Boundary(s, m)] && m - Boundary(s, m) <= 3
  {
    hide Continuation, TrimFrom;
    RuneInside(s);
    RuneOfPrefix(s, m);
    assert forall k :: 0 <= k < m ==> s[..m][k] == s[k];
    TrimInside(s[..m], 0);
    hide RuneLength;
    assert s[..0] == "";
  }

  /** Within the last four bytes a rune starts. */
  lemma {:induction false} StartNearEnd(s: string, m: nat)
    requires ValidUtf8(s) && 0 < m <= |s|
    ensures exists k :: 0 <= k < m && m - 1 - k < 4 && !Continuation(s[..m][k])
    decreases |s|
  {
    var n := RuneLength(s);
    RuneInside(s);
    if n >= m {
      assert !Continuation(s[..m][0]);
    } else {
      StartNearEnd(s[n..], m - n);
      var k :| 0 <= k < m - n && m - n - 1 - k < 4 && !Continuation(s[n..][..m - n][k]);
      assert s[..m][n + k] == s[n..][..m - n][k];
    }
  }

  /** So the stored part of a valid response is valid, as long as can be, and at most three bytes
      shorter than the buffer. */
  lemma {:induction false} TrimmedBuffer(attempts: seq<Attempt>, cap: int)
    requires cap > 0 && ValidUtf8(AllAccepted(attempts))
    ensures var body := WriteAll(attempts, cap).body; var kept := TrimTrailingPartialRune(body);
            && kept <= body && ValidUtf8(kept) && |body| - |kept| <= 3
            && forall k :: |kept| < k <= |body| ==> !ValidUtf8(body[..k])
  {
    hide RuneLength, ValidUtf8, TrimFrom, WriteAll, Boundary, AllAccepted;
    BufferIsPrefix(attempts, cap);
    var s := AllAccepted(attempts);
    var m := if |s| <= cap then |s| else cap;
    assert WriteAll(attempts, cap).body == s[..m];
    PrefixTrimmed(s, m);
  }

  lemma {:induction false} PrefixTrimmed(s: string, m: nat)
    requires ValidUtf8(s) && m <= |s|
    ensures var body := s[..m]; var kept := TrimTrailingPartialRune(body);
            && kept <= body && ValidUtf8(kept) && |body| - |kept| <= 3
            && forall k :: |kept| < k <= |body| ==> !ValidUtf8(body[..k])
  {
    hide RuneLength, ValidUtf8, TrimFrom, Boundary;
    TrimIsBoundary(s, m);
    BoundaryValid(s, m);
    forall k | Boundary(s, m) < k <= m ensures !ValidUtf8(s[..m][..k]) {
      assert s[..m][..k] == s[..k];
      if ValidUtf8(s[..k]) {
        BoundaryLongest(s, m, k);
      }
    }
  }

  // ---------------------------------------------------------------- the stored text

  /** U+FFFD */
  const REPLACEMENT := "\U{ef}\U{bf}\U{bd}"

  /** strings.ToValidUTF8 with U+FFFD: a run of bytes that start no rune becomes one replacement;
      `inRun` says that such a run is under way. */
  function ToValidUtf8(s: string, inRun: bool): string
    decreases |s|
  {
    if s == "" then ""
    else if RuneLength(s) == 0 then (if inRun then "" else REPLACEMENT) + ToValidUtf8(s[1..], true)
    else s[..RuneLength(s)] + ToValidUtf8(s[RuneLength(s)..], false)
  }

  const ELLIPSIS := "\U{e2}\U{80}\U{a6}"

  function Notice(total: nat, cap: int): string {
    "<response body truncated, " + Itoa(total) + " bytes total, snapshot cap " + Signed(cap) + ">"
  }

  function Marker(total: nat, cap: int): string {
    ELLIPSIS + Notice(total, cap)
  }

  function Body(s: Snapshot, cap: int): string {
    if !s.truncated then s.body
    else ToValidUtf8(TrimTrailingPartialRune(s.body), false) + Marker(s.total, cap)
  }

  lemma {:induction false} ValidUnchanged(s: string, inRun: bool)
    requires ValidUtf8(s)
    ensures ToValidUtf8(s, inRun) == s
    decreases |s|
  {
    if s != "" {
      ValidUnchanged(s[RuneLength(s)..], false);
      assert s[..RuneLength(s)] + s[RuneLength(s)..] == s;
    }
  }

  lemma {:induction false} ValidAppend(a: string, b: string)
    requires ValidUtf8(a) && ValidUtf8(b)
    ensures ValidUtf8(a + b)
    decreases |a|
  {
    hide RuneLength;
    if a == "" {
      assert a + b == b;
    } else {
      var n := RuneLength(a);
      ValidAppend(a[n..], b);
      RuneThen(a, b);
      assert (a + b)[n..] == a[n..] + b;
    }
  }

  /** What follows a rune does not change it. */
  lemma {:induction false} RuneThen(a: string, b: string)
    requires RuneLength(a) > 0
    ensures RuneLength(a + b) == RuneLength(a)
  {
    assert forall k :: 0 <= k < |a| ==> (a + b)[k] == a[k];
  }

  lemma {:induction false} OneRune(s: string)
    requires RuneLength(s) > 0
    ensures ValidUtf8(s[..RuneLength(s)])
  {
    var n := RuneLength(s);
    RuneOfPrefix(s, n);
    assert s[..n][n..] == "";
  }

  lemma {:induction false} CleanIsValid(s: string, inRun: bool)
    ensures ValidUtf8(ToValidUtf8(s, inRun))
    decreases |s|
  {
    hide RuneLength, ValidUtf8;
    if s == "" {
      AsciiValid("");
    } else if RuneLength(s) == 0 {
      CleanIsValid(s[1..], true);
      ReplacementValid();
      ValidAppend(REPLACEMENT, ToValidUtf8(s[1..], true));
      assert "" + ToValidUtf8(s[1..], true) == ToValidUtf8(s[1..], true);
    } else {
      CleanIsValid(s[RuneLength(s)..], false);
      OneRune(s);
      ValidAppend(s[..RuneLength(s)], ToValidUtf8(s[RuneLength(s)..], false));
    }
  }

  lemma {:induction false} ReplacementValid()
    ensures ValidUtf8(REPLACEMENT) && ValidUtf8(ELLIPSIS)
  {
    assert RuneLength(REPLACEMENT) == 3 && REPLACEMENT[3..] == "";
    assert RuneLength(ELLIPSIS) == 3 && ELLIPSIS[3..] == "";
  }

  predicate Ascii(s: string) {
    forall k :: 0 <= k < |s| ==> s[k] as int < 0x80
  }

  lemma {:induction false} AsciiValid(s: string)
    requires Ascii(s)
    ensures ValidUtf8(s)
    decreases |s|
  {
    if s != "" {
      assert RuneLength(s) == 1;
      AsciiValid(s[1..]);
    }
  }

  lemma {:induction false} AsciiAppend(a: string, b: string)
    requires Ascii(a) && Ascii(b)
    ensures Ascii(a + b)
  {
  }

  lemma {:induction false} SignedAscii(n: int)
    ensures Ascii(Signed(n))
  {
    hide Itoa;
    ItoaValue(if n < 0 then -n else n);
    AsciiAppend("-", Itoa(if n < 0 then -n else n));
  }

  lemma {:induction false} FiveAscii(a: string, b: string, c: string, d: string, e: string)
    requires Ascii(a) && Ascii(b) && Ascii(c) && Ascii(d) && Ascii(e)
    ensures Ascii(a + b + c + d + e)
  {
    AsciiAppend(a, b);
    AsciiAppend(a + b, c);
    AsciiAppend(a + b + c, d);
    AsciiAppend(a + b + c + d, e);
  }

  lemma {:induction false} NoticeAscii(total: nat, cap: int)
    ensures Ascii(Notice(total, cap))
  {
    hide Signed, Itoa;
    SignedAscii(cap);
    assert Ascii(Itoa(total)) by { ItoaValue(total); }
    FiveAscii("<response body truncated, ", Itoa(total), " bytes total, snapshot cap ", Signed(cap), ">");
  }

  lemma {:induction false} MarkerValid(total: nat, cap: int)
    ensures ValidUtf8(Marker(total, cap))
  {
    hide Notice, ValidUtf8;
    NoticeAscii(total, cap);
    AsciiValid(Notice(total, cap));
    ReplacementValid();
    ValidAppend(ELLIPSIS, Notice(total, cap));
  }

  /** What is stored of a response: all of it if it fits; otherwise the longest prefix of whole runes
      within the cap, if the response is valid UTF-8, and a marker with the true length. */
  lemma {:induction false} StoredText(attempts: seq<Attempt>, cap: int)
    ensures var text, sent := Body(WriteAll(attempts, cap), cap), AllAccepted(attempts);
            if cap <= 0 || |sent| <= cap then text == sent
            else ValidUtf8(sent) ==>
                   exists q :: cap - 3 <= q <= cap && 0 <= q && text == sent[..q] + Marker(|sent|, cap)
                               && ValidUtf8(sent[..q]) && forall k :: q < k <= cap ==> !ValidUtf8(sent[..k])
  {
    hide RuneLength, ValidUtf8, TrimFrom, WriteAll, Boundary, AllAccepted, Marker, ToValidUtf8;
    BufferIsPrefix(attempts, cap);
    var sent, body := AllAccepted(attempts), WriteAll(attempts, cap).body;
    if cap > 0 && |sent| > cap && ValidUtf8(sent) {
      assert body == sent[..cap];
      PrefixTrimmed(sent, cap);
      var kept := TrimTrailingPartialRune(body);
      ValidUnchanged(kept, false);
      var q := |kept|;
      assert kept == sent[..q];
      forall k | q < k <= cap ensures !ValidUtf8(sent[..k]) {
        assert body[..k] == sent[..k];
      }
    }
  }

  /** Whatever bytes were sent, a text that was cut is valid UTF-8. */
  lemma {:induction false} CutTextIsValid(s: Snapshot, cap: int)
    requires s.truncated
    ensures ValidUtf8(Body(s, cap))
  {
    hide ValidUtf8, TrimFrom, Marker, ToValidUtf8;
    CleanIsValid(TrimTrailingPartialRune(s.body), false);
    MarkerValid(s.total, cap);
    ValidAppend(ToValidUtf8(TrimTrailingPartialRune(s.body), false), Marker(s.total, cap));
  }

  /** A byte that starts no rune. */
  predicate Stray(c: char) {
    0x80 <= c as int < 0xC2 || c as int > 0xF4
  }

  lemma {:induction false} RunReplaced(bad: string, b: string, inRun: bool)
    requires ValidUtf8(b) && forall k :: 0 <= k < |bad| ==> Stray(bad[k])
    ensures ToValidUtf8(bad + b, inRun) == (if inRun || bad == "" then "" else REPLACEMENT) + b
    decreases |bad|
  {
    if bad == "" {
      assert bad + b == b && "" + b == b;
      ValidUnchanged(b, inRun);
    } else {
      assert (bad + b)[0] == bad[0] && Stray(bad[0]);
      assert (bad + b)[1..] == bad[1..] + b;
      RunReplaced(bad[1..], b, true);
      assert "" + b == b;
    }
  }

  lemma {:induction false} ValidFirst(a: string, rest: string)
    requires ValidUtf8(a)
    ensures ToValidUtf8(a + rest, false) == a + ToValidUtf8(rest, false)
    decreases |a|
  {
    hide RuneLength;
    if a == "" {
      assert a + rest == rest;
    } else {
      var n := RuneLength(a);
      RuneThen(a, rest);
      assert (a + rest)[..n] == a[..n] && (a + rest)[n..] == a[n..] + rest;
      ValidFirst(a[n..], rest);
    }
  }

  /** In a text that is cleaned up, a run of stray bytes becomes one replacement character, and the
      valid text around it stays. */
  lemma {:induction false} StrayBytesReplaced(a: string, bad: string, b: string)
    requires ValidUtf8(a) && ValidUtf8(b) && bad != "" && forall k :: 0 <= k < |bad| ==> Stray(bad[k])
    ensures ToValidUtf8(a + bad + b, false) == a + "\U{ef}\U{bf}\U{bd}" + b
  {
    hide ToValidUtf8, ValidUtf8, Stray;
    assert a + (bad + b) == a + bad + b && a + (REPLACEMENT + b) == a + REPLACEMENT + b;
    ValidFirst(a, bad + b);
    RunReplaced(bad, b, false);
  }

  /** The marker at the end of a cut text, for a response of seven bytes and room for five. */
  lemma {:induction false} MarkerExample()
    ensures Marker(7, 5) == "\U{e2}\U{80}\U{a6}" + "<response body truncated, 7 bytes total, snapshot cap 5>"
  {
    assert Itoa(7) == "7" && Signed(5) == "5";
    assert "<response body truncated, " + "7" + " bytes total, snapshot cap " + "5" + ">"
        == "<response body truncated, 7 bytes total, snapshot cap 5>";
  }

  // ---------------------------------------------------------------- the object

  class ResponseCapture {
    var body: string
    var wrote: bool
    const maxBytes: int
    var total: nat
    var truncated: bool

    ghost function View(): Snapshot
      reads this
    {
      Snapshot(body, total, truncated, wrote)
    }

    constructor (maxBytes: int)
      ensures View() == NOTHING && this.maxBytes == maxBytes
    {
      this.maxBytes := maxBytes;
      body, wrote, total, truncated := "", false, 0, false;
    }

    method WriteHeader()
      modifies this`wrote
      ensures View() == old(View()).(wrote := true)
    {
      wrote := true;
    }

    method CaptureBounded(b: string)
      modifies this`body, this`total, this`truncated
      ensures View() == Capture(old(View()), b, maxBytes)
    {
      total := total + |b|;
      if maxBytes <= 0 {
        body := body + b;
        return;
      }
      var remaining := maxBytes - |body|;
      if remaining <= 0 {
        truncated := true;
        return;
      }
      if |b| > remaining {
        body := body + b[..remaining];
        truncated := true;
        return;
      }
      body := body + b;
    }

    /** The client's writer accepts the first `accepted` bytes, or reports an error with fewer. */
    method Write(b: string, accepted: int) returns (n: int)
      requires accepted <= |b|
      modifies this
      ensures n == accepted && View() == Written(old(View()), Attempt(b, accepted), maxBytes)
    {
      n := accepted;
      if n > 0 {
        wrote := true;
        CaptureBounded(b[..n]);
      }
    }

    method Stored() returns (text: string)
      ensures text == Body(View(), maxBytes)
    {
      if !truncated {
        return body;
      }
      var prefix := TrimPartialRune(body);
      return ToValidUtf8(prefix, false) + Marker(total, maxBytes);
    }
  }
}
