/** Cooldown keys as Redis keys: the printer and the parser of internal/cooldown/store_redis.go,
    with the query escaping of net/url (section 2.1 of RFC 3986 for the %XX form), and the pattern
    with which the keys of a provider are scanned. */
module RedisKeys {
  import opened Options
  import opened Text
  import opened Decimal
  import opened CooldownStores
  import opened Wildcard

  predicate IsByte(c: char) {
    c as int < 256
  }

  type Bytes = s: string | forall k :: 0 <= k < |s| ==> IsByte(s[k])

  // ---------------------------------------------------------------- query escaping

  predicate Unreserved(c: char) {
    || 'a' <= c <= 'z' || 'A' <= c <= 'Z' || '0' <= c <= '9'
    || c == '-' || c == '_' || c == '.' || c == '~'
  }

  function HexDigit(n: nat): char
    requires n < 16
  {
    "0123456789ABCDEF"[n]
  }

  function HexValue(c: char): Option<nat> {
    if '0' <= c <= '9' then Some(c as int - '0' as int)
    else if 'a' <= c <= 'f' then Some(c as int - 'a' as int + 10)
    else if 'A' <= c <= 'F' then Some(c as int - 'A' as int + 10)
    else None
  }

  function EscapeByte(c: char): string
    requires IsByte(c)
  {
    if Unreserved(c) then [c]
    else if c == ' ' then "+"
    else ['%', HexDigit(c as int / 16), HexDigit(c as int % 16)]
  }

  /** url.QueryEscape */
  function Escape(s: Bytes): string {
    if s == "" then "" else EscapeByte(s[0]) + Escape(s[1..])
  }

  /** url.QueryUnescape; None for a `%` without two hexadecimal digits. */
  function Unescape(s: string): Option<string> {
    if s == "" then Some("")
    else if s[0] == '%' then
      if |s| < 3 || HexValue(s[1]).None? || HexValue(s[2]).None? then None
      else
        var rest, v := Unescape(s[3..]), HexValue(s[1]).value * 16 + HexValue(s[2]).value;
        if rest.None? || v >= 256 then None else Some([v as char] + rest.value)
    else
      var rest := Unescape(s[1..]);
      if rest.None? then None else Some([if s[0] == '+' then ' ' else s[0]] + rest.value)
  }

  lemma {:induction false} HexRoundTrip(n: nat)
    requires n < 16
    ensures HexValue(HexDigit(n)) == Some(n)
  {
    assert n == 0 || n == 1 || n == 2 || n == 3 || n == 4 || n == 5 || n == 6 || n == 7
        || n == 8 || n == 9 || n == 10 || n == 11 || n == 12 || n == 13 || n == 14 || n == 15;
  }

  lemma {:induction false} UnescapeByte(c: char, rest: string)
    requires IsByte(c)
    ensures Unescape(EscapeByte(c) + rest)
         == if Unescape(rest).None? then None else Some([c] + Unescape(rest).value)
  {
    var s := EscapeByte(c) + rest;
    if Unreserved(c) || c == ' ' {
      assert s[1..] == rest;
    } else {
      HexRoundTrip(c as int / 16);
      HexRoundTrip(c as int % 16);
      assert s[3..] == rest;
      assert (c as int / 16) * 16 + c as int % 16 == c as int;
    }
  }

  lemma {:induction false} EscapeRoundTrip(s: Bytes)
    ensures Unescape(Escape(s)) == Some(s)
    decreases |s|
  {
    if s != "" {
      EscapeRoundTrip(s[1..]);
      UnescapeByte(s[0], Escape(s[1..]));
      assert [s[0]] + s[1..] == s;
    }
  }

  predicate IsHex(c: char) {
    '0' <= c <= '9' || 'a' <= c <= 'f' || 'A' <= c <= 'F'
  }

  /** Every percent sign stands before two hexadecimal digits. */
  predicate WellEscaped(s: string) {
    s == "" ||
    if s[0] == '%' then |s| >= 3 && IsHex(s[1]) && IsHex(s[2]) && WellEscaped(s[3..]) else WellEscaped(s[1..])
  }

  /** Exactly such texts are unescaped; others are an error. */
  lemma {:induction false} UnescapeExactly(s: string)
    ensures Unescape(s).Some? <==> WellEscaped(s)
    decreases |s|
  {
    if s != "" {
      if s[0] == '%' && |s| >= 3 {
        UnescapeExactly(s[3..]);
      } else if s[0] != '%' {
        UnescapeExactly(s[1..]);
      }
    }
  }

  /** What an escaped string is made of. */
  predicate Plain(c: char) {
    Unreserved(c) || c == '+' || c == '%'
  }

  lemma {:induction false} EscapePlain(s: Bytes)
    ensures forall k :: 0 <= k < |Escape(s)| ==> Plain(Escape(s)[k])
    ensures s != "" ==> Escape(s) != ""
    decreases |s|
  {
    if s != "" {
      EscapePlain(s[1..]);
      var c := s[0];
      assert forall k :: 0 <= k < |EscapeByte(c)| ==> Plain(EscapeByte(c)[k]) by {
        if !Unreserved(c) && c != ' ' {
          HexPlain(c as int / 16);
          HexPlain(c as int % 16);
        }
      }
      var e, rest := EscapeByte(c), Escape(s[1..]);
      forall k | 0 <= k < |e + rest| ensures Plain((e + rest)[k]) {
        assert k >= |e| ==> (e + rest)[k] == rest[k - |e|];
      }
      assert |e| > 0;
      assert Escape(s) == e + rest && |e + rest| > 0;
    }
  }

  lemma {:induction false} HexPlain(n: nat)
    requires n < 16
    ensures Plain(HexDigit(n))
  {
    assert n == 0 || n == 1 || n == 2 || n == 3 || n == 4 || n == 5 || n == 6 || n == 7
        || n == 8 || n == 9 || n == 10 || n == 11 || n == 12 || n == 13 || n == 14 || n == 15;
  }

  function EncodeKeyPart(v: Bytes): string {
    if v == "" then "*" else Escape(v)
  }

  function DecodeKeyPart(v: string): Option<string> {
    if v == "*" then Some("") else Unescape(v)
  }

  /** Escaped text has no colon and no star. */
  lemma {:induction false} EscapeClean(v: Bytes)
    ensures ':' !in Escape(v) && '*' !in Escape(v)
  {
    hide Escape;
    EscapePlain(v);
  }

  lemma {:induction false} PartRoundTrip(v: Bytes)
    ensures DecodeKeyPart(EncodeKeyPart(v)) == Some(v)
    ensures ':' !in EncodeKeyPart(v)
  {
    hide Escape, Unescape;
    EscapeRoundTrip(v);
    EscapeClean(v);
    assert '*' in "*";
  }

  // ---------------------------------------------------------------- keys

  predicate ValidKey(k: Key) {
    && k.provider <= MAX_UINT64
    && (forall i :: 0 <= i < |k.client| ==> IsByte(k.client[i]))
    && (forall i :: 0 <= i < |k.model| ==> IsByte(k.model[i]))
  }

  function Colon(part: string, rest: string): string {
    part + [':'] + rest
  }

  /** The parts of the format, joined by colons. */
  function JoinColons(parts: seq<string>): string {
    if parts == [] then "" else if |parts| == 1 then parts[0] else Colon(parts[0], JoinColons(parts[1..]))
  }

  function KeyParts(p: string, client: string, model: string): seq<string> {
    ["maxx", "v1", "cooldown", "p", p, "c", client, "m", model]
  }

  function KeyName(k: Key): string
    requires ValidKey(k)
  {
    JoinColons(KeyParts(Itoa(k.provider), EncodeKeyPart(k.client), EncodeKeyPart(k.model)))
  }

  function GenerationKey(p: nat): string {
    JoinColons(["maxx", "v1", "cooldown", "gen", "p", Itoa(p)])
  }

  /** The pattern of ListByProvider and DeleteByProvider. */
  function ScanPattern(p: nat): string {
    JoinColons(KeyParts(Itoa(p), "*", "*"))
  }

  function ParseKey(raw: string): Option<Key> {
    var parts := Split(raw, ':');
    if |parts| != 9 || parts[0] != "maxx" || parts[1] != "v1" || parts[2] != "cooldown" then None
    else if parts[3] != "p" || parts[5] != "c" || parts[7] != "m" then None
    else
      var p, client, model := ParseUint64(parts[4]), DecodeKeyPart(parts[6]), DecodeKeyPart(parts[8]);
      if p.None? || client.None? || model.None? then None
      else Some(Key(p.value, client.value, model.value))
  }

  lemma {:induction false} SplitJoin(parts: seq<string>)
    requires parts != [] && forall k :: 0 <= k < |parts| ==> ':' !in parts[k]
    ensures Split(JoinColons(parts), ':') == parts
    decreases |parts|
  {
    hide Split;
    if |parts| == 1 {
      WholePiece(parts[0], ':');
    } else {
      SplitJoin(parts[1..]);
      SplitLine(parts[0], JoinColons(parts[1..]), ':');
    }
  }

  lemma {:induction false} DigitsNoColon(n: nat)
    ensures ':' !in Itoa(n)
  {
    ItoaValue(n);
    assert !IsDigit(':');
    assert forall k :: 0 <= k < |Itoa(n)| ==> IsDigit(Itoa(n)[k]);
  }

  /** Different providers have different generation keys. */
  lemma {:induction false} GenerationKeyInjective(p: nat, q: nat)
    requires GenerationKey(p) == GenerationKey(q)
    ensures p == q
  {
    hide Split, JoinColons, Itoa;
    var a, b := ["maxx", "v1", "cooldown", "gen", "p", Itoa(p)], ["maxx", "v1", "cooldown", "gen", "p", Itoa(q)];
    DigitsNoColon(p);
    DigitsNoColon(q);
    SplitJoin(a);
    SplitJoin(b);
    assert a[5] == b[5];
    ItoaInjective(p, q);
  }

  /** Every key comes back, whatever its parts contain. */
  lemma {:induction false} KeyRoundTrip(k: Key)
    requires ValidKey(k)
    ensures ParseKey(KeyName(k)) == Some(k)
  {
    hide Split, JoinColons, EncodeKeyPart, DecodeKeyPart, AllDigits;
    var parts := KeyParts(Itoa(k.provider), EncodeKeyPart(k.client), EncodeKeyPart(k.model));
    PartRoundTrip(k.client);
    PartRoundTrip(k.model);
    DigitsNoColon(k.provider);
    ItoaValue(k.provider);
    SplitJoin(parts);
  }

  lemma {:induction false} KeyNameInjective(a: Key, b: Key)
    requires ValidKey(a) && ValidKey(b) && KeyName(a) == KeyName(b)
    ensures a == b
  {
    KeyRoundTrip(a);
    KeyRoundTrip(b);
  }

  lemma {:induction false} JoinSplit(raw: string)
    ensures JoinColons(Split(raw, ':')) == raw
    decreases |raw|
  {
    if raw != "" {
      JoinSplit(raw[1..]);
      var tail := Split(raw[1..], ':');
      if raw[0] == ':' {
        assert ([""] + tail)[1..] == tail;
        assert "" + [':'] + JoinColons(tail) == raw;
      } else {
        var first := [raw[0]] + tail[0];
        assert ([first] + tail[1..])[1..] == tail[1..];
        var more := [':'] + JoinColons(tail[1..]);
        assert |tail| > 1 ==> first + [':'] + JoinColons(tail[1..]) == [raw[0]] + (tail[0] + more);
        assert |tail| > 1 ==> JoinColons(tail) == tail[0] + more;
        assert [raw[0]] + raw[1..] == raw;
      }
    }
  }

  lemma {:induction false} JoinTwo(a: string, b: string, rest: seq<string>)
    requires rest != []
    ensures JoinColons([a, b] + rest) == a + ":" + b + ":" + JoinColons(rest)
  {
    assert ([a, b] + rest)[1..] == [b] + rest && ([b] + rest)[1..] == rest;
    assert JoinColons([b] + rest) == b + [':'] + JoinColons(rest);
    assert a + [':'] + (b + [':'] + JoinColons(rest)) == a + ":" + b + ":" + JoinColons(rest);
  }

  lemma {:induction false} JoinedTail(p: string, client: string, model: string)
    ensures JoinColons([p, "c", client, "m", model]) == p + ":c:" + client + ":m:" + model
  {
    hide JoinColons;
    JoinTwo(p, "c", [client, "m", model]);
    JoinTwo(client, "m", [model]);
    JoinOne(model);
    assert [p, "c", client, "m", model] == [p, "c"] + [client, "m", model];
    assert [client, "m", model] == [client, "m"] + [model];
    assert client + ":" + "m" + ":" + model == client + ":m:" + model;
    assert p + ":" + "c" + ":" + (client + ":m:" + model) == p + ":c:" + client + ":m:" + model;
  }

  lemma {:induction false} JoinedKey(p: string, client: string, model: string)
    ensures JoinColons(KeyParts(p, client, model)) == "maxx:v1:cooldown:p:" + p + ":c:" + client + ":m:" + model
  {
    hide JoinColons;
    var tail := [p, "c", client, "m", model];
    JoinTwo("maxx", "v1", ["cooldown", "p"] + tail);
    JoinTwo("cooldown", "p", tail);
    JoinedTail(p, client, model);
    assert KeyParts(p, client, model) == ["maxx", "v1"] + (["cooldown", "p"] + tail);
    var text := JoinColons(tail);
    assert "maxx" + ":" + "v1" + ":" + ("cooldown" + ":" + "p" + ":" + text) == "maxx:v1:cooldown:p:" + text;
    assert "maxx:v1:cooldown:p:" + (p + ":c:" + client + ":m:" + model)
        == "maxx:v1:cooldown:p:" + p + ":c:" + client + ":m:" + model;
  }

  lemma {:induction false} JoinOne(part: string)
    ensures JoinColons([part]) == part
  {
  }

  /** Only keys of this version and kind are read: those that print a provider, a client and a model. */
  lemma {:induction false} ParsedShape(raw: string) returns (p: string, client: string, model: string)
    requires ParseKey(raw).Some?
    ensures raw == "maxx:v1:cooldown:p:" + p + ":c:" + client + ":m:" + model
    ensures ParseUint64(p) == Some(ParseKey(raw).value.provider)
    ensures DecodeKeyPart(client) == Some(ParseKey(raw).value.client)
    ensures DecodeKeyPart(model) == Some(ParseKey(raw).value.model)
  {
    hide ParseUint64, DecodeKeyPart;
    var parts := Split(raw, ':');
    p, client, model := parts[4], parts[6], parts[8];
    JoinSplit(raw);
    assert parts == KeyParts(p, client, model);
    hide Split;
    JoinedKey(p, client, model);
  }

  /** The counter of a provider is never taken for a cooldown. */
  lemma {:induction false} GenerationKeysDoNotParse(p: nat)
    ensures ParseKey(GenerationKey(p)).None?
  {
    hide Split, JoinColons;
    DigitsNoColon(p);
    SplitJoin(["maxx", "v1", "cooldown", "gen", "p", Itoa(p)]);
  }

  // ---------------------------------------------------------------- scanning

  /** Everything up to the first star must be there. */
  lemma {:induction false} FitsPrefix(piece: string, rest: string, input: string, words: seq<string>)
    requires STAR !in piece && FilledBy(piece + rest, input, words)
    ensures |piece| <= |input| && input[..|piece|] == piece && FilledBy(rest, input[|piece|..], words)
    decreases |piece|
  {
    if piece == "" {
      assert piece + rest == rest;
    } else {
      assert (piece + rest)[1..] == piece[1..] + rest;
      assert piece[0] in piece;
      FitsPrefix(piece[1..], rest, input[1..], words);
      assert input == [piece[0]] + input[1..];
      assert input[1..][|piece| - 1..] == input[|piece|..];
    }
  }

  lemma {:induction false} PrefixFits(piece: string, rest: string, input: string, words: seq<string>)
    requires STAR !in piece && FilledBy(rest, input, words)
    ensures FilledBy(piece + rest, piece + input, words)
    decreases |piece|
  {
    if piece == "" {
      assert piece + rest == rest && piece + input == input;
    } else {
      assert (piece + rest)[1..] == piece[1..] + rest;
      assert piece[0] in piece;
      PrefixFits(piece[1..], rest, input, words);
      assert piece + input == [piece[0]] + (piece[1..] + input);
    }
  }

  lemma {:induction false} StarFits(rest: string, word: string, input: string, words: seq<string>)
    requires FilledBy(rest, input, words)
    ensures FilledBy("*" + rest, word + input, [word] + words)
  {
    assert ("*" + rest)[1..] == rest && ([word] + words)[1..] == words;
  }

  /** The fixed beginning of every key of provider `p`. */
  function Head(p: string): string {
    Colon("maxx", Colon("v1", Colon("cooldown", Colon("p", Colon(p, Colon("c", ""))))))
  }

  lemma {:induction false} ColonAppend(part: string, rest: string, more: string)
    ensures Colon(part, rest) + more == Colon(part, rest + more)
  {
  }

  /** Six parts and then whatever follows. */
  lemma {:induction false} HeadAppend(p: string, more: string)
    ensures Head(p) + more == Colon("maxx", Colon("v1", Colon("cooldown", Colon("p", Colon(p, Colon("c", more))))))
  {
    hide Colon;
    var e := Colon("c", "");
    ColonAppend("c", "", more);
    assert "" + more == more;
    ColonAppend(p, e, more);
    ColonAppend("p", Colon(p, e), more);
    ColonAppend("cooldown", Colon("p", Colon(p, e)), more);
    ColonAppend("v1", Colon("cooldown", Colon("p", Colon(p, e))), more);
    ColonAppend("maxx", Colon("v1", Colon("cooldown", Colon("p", Colon(p, e)))), more);
  }

  lemma {:induction false} HeadSplit(p: nat, more: string)
    ensures var parts := Split(Head(Itoa(p)) + more, ':'); |parts| > 6 && parts[3] == "p" && parts[4] == Itoa(p)
  {
    hide Colon, Split, Head;
    HeadAppend(Itoa(p), more);
    DigitsNoColon(p);
    var e := Colon("c", more);
    ColonSplit("c", more);
    ColonSplit(Itoa(p), e);
    ColonSplit("p", Colon(Itoa(p), e));
    ColonSplit("cooldown", Colon("p", Colon(Itoa(p), e)));
    ColonSplit("v1", Colon("cooldown", Colon("p", Colon(Itoa(p), e))));
    ColonSplit("maxx", Colon("v1", Colon("cooldown", Colon("p", Colon(Itoa(p), e)))));
  }

  lemma {:induction false} ColonSplit(part: string, rest: string)
    requires ':' !in part
    ensures Split(Colon(part, rest), ':') == [part] + Split(rest, ':')
  {
    hide Split;
    SplitLine(part, rest, ':');
  }

  lemma {:induction false} JoinNext(part: string, parts: seq<string>)
    requires parts != []
    ensures JoinColons([part] + parts) == Colon(part, JoinColons(parts))
  {
    assert ([part] + parts)[1..] == parts;
  }

  lemma {:induction false} JoinKey(p: string, client: string, model: string)
    ensures JoinColons(KeyParts(p, client, model)) == Head(p) + (client + (":m:" + model))
  {
    hide Colon, JoinColons, Head;
    var end := client + (":m:" + model);
    assert JoinColons([client, "m", model]) == end by { JoinEnd(client, model); }
    HeadAppend(p, end);
    var t := [client, "m", model];
    JoinNext("c", t);
    JoinNext(p, ["c"] + t);
    JoinNext("p", [p] + (["c"] + t));
    JoinNext("cooldown", ["p"] + ([p] + (["c"] + t)));
    JoinNext("v1", ["cooldown"] + (["p"] + ([p] + (["c"] + t))));
    JoinNext("maxx", ["v1"] + (["cooldown"] + (["p"] + ([p] + (["c"] + t)))));
    assert KeyParts(p, client, model) == ["maxx"] + (["v1"] + (["cooldown"] + (["p"] + ([p] + (["c"] + t)))));
  }

  lemma {:induction false} JoinEnd(client: string, model: string)
    ensures JoinColons([client, "m", model]) == client + (":m:" + model)
  {
    JoinNext("m", [model]);
    JoinNext(client, ["m", model]);
    assert [client, "m", model] == [client] + ["m", model] && ["m", model] == ["m"] + [model];
    assert Colon("m", model) == "m:" + model;
    assert ":m:" + model == ":" + ("m:" + model);
  }

  /** A provider's scan finds exactly the cooldown keys of that provider. */
  lemma {:induction false} ScanSelects(p: nat, k: Key)
    requires ValidKey(k)
    ensures Fits(ScanPattern(p), KeyName(k)) <==> k.provider == p
  {
    hide JoinColons, FilledBy, EncodeKeyPart;
    var head, client, model := Head(Itoa(p)), EncodeKeyPart(k.client), EncodeKeyPart(k.model);
    JoinKey(Itoa(p), "*", "*");
    JoinKey(Itoa(k.provider), client, model);
    var tail := "*" + (":m:" + "*");
    HeadLetters(p);
    if Fits(ScanPattern(p), KeyName(k)) {
      var words :| FilledBy(ScanPattern(p), KeyName(k), words);
      FitsPrefix(head, tail, KeyName(k), words);
      HeadsDiffer(p, k.provider, client + (":m:" + model), KeyName(k)[|head|..]);
    }
    if k.provider == p {
      TailFits(client, model);
      PrefixFits(head, tail, client + (":m:" + model), [client, model]);
    }
  }

  lemma {:induction false} TailFits(client: string, model: string)
    ensures FilledBy("*" + (":m:" + "*"), client + (":m:" + model), [client, model])
  {
    assert FilledBy("", "", []);
    StarFits("", model, "", []);
    assert "*" + "" == "*" && model + "" == model && [model] + [] == [model];
    PrefixFits(":m:", "*", model, [model]);
    StarFits(":m:" + "*", client, ":m:" + model, [model]);
    assert [client] + [model] == [client, model];
  }

  lemma {:induction false} HeadLetters(p: nat)
    ensures STAR !in Head(Itoa(p))
  {
    ItoaValue(p);
    assert !IsDigit(STAR);
    assert forall k :: 0 <= k < |Itoa(p)| ==> IsDigit(Itoa(p)[k]);
  }

  /** Keys that begin the same way are of the same provider. */
  lemma {:induction false} HeadsDiffer(p: nat, q: nat, a: string, b: string)
    requires Head(Itoa(q)) + a == Head(Itoa(p)) + b
    ensures p == q
  {
    hide Split, Head;
    HeadSplit(q, a);
    HeadSplit(p, b);
    ItoaInjective(p, q);
  }

  lemma {:induction false} FitsHead(p: nat, key: string, words: seq<string>)
    requires FilledBy(ScanPattern(p), key, words)
    ensures |Split(key, ':')| > 3 && Split(key, ':')[3] == "p"
  {
    hide JoinColons, FilledBy, Head, Split;
    JoinKey(Itoa(p), "*", "*");
    HeadLetters(p);
    var head := Head(Itoa(p));
    FitsPrefix(head, "*" + (":m:" + "*"), key, words);
    HeadSplit(p, key[|head|..]);
    assert head + key[|head|..] == key;
  }

  /** And never a generation counter. */
  lemma {:induction false} ScanSkipsGenerations(p: nat, q: nat)
    ensures !Fits(ScanPattern(p), GenerationKey(q))
  {
    hide JoinColons, FilledBy, Split;
    DigitsNoColon(q);
    SplitJoin(["maxx", "v1", "cooldown", "gen", "p", Itoa(q)]);
    forall words ensures !FilledBy(ScanPattern(p), GenerationKey(q), words) {
      if FilledBy(ScanPattern(p), GenerationKey(q), words) {
        FitsHead(p, GenerationKey(q), words);
      }
    }
  }

  // ---------------------------------------------------------------- the store in Redis

  /** The database holds the entries under their key names, and generation counters. */
  ghost predicate Represents(db: map<string, int>, entries: Entries) {
    && (forall k :: k in entries ==> ValidKey(k) && KeyName(k) in db && db[KeyName(k)] == entries[k])
    && (forall raw :: raw in db ==> IsCooldown(entries, raw) || IsGeneration(raw))
  }

  ghost predicate IsCooldown(entries: Entries, raw: string) {
    exists k :: k in entries && ValidKey(k) && KeyName(k) == raw
  }

  ghost predicate IsGeneration(raw: string) {
    exists p: nat :: GenerationKey(p) == raw
  }

  /** ListByProvider reports `k` with end `until`: some scanned key parses to it and is not over. */
  ghost predicate Lists(db: map<string, int>, p: nat, now: int, k: Key, until: int) {
    exists raw :: raw in db && Fits(ScanPattern(p), raw) && ParseKey(raw) == Some(k) && db[raw] == until && now <= until
  }

  /** It reports the entries of the provider that are not over, and nothing else. */
  lemma {:induction false} ListsExactly(db: map<string, int>, entries: Entries, p: nat, now: int, k: Key, until: int)
    requires Represents(db, entries)
    ensures Lists(db, p, now, k, until) <==> k in entries && k.provider == p && entries[k] == until && now <= until
  {
    hide Fits, ParseKey, KeyName, GenerationKey, ScanPattern, ValidKey;
    if Lists(db, p, now, k, until) {
      var raw :| raw in db && Fits(ScanPattern(p), raw) && ParseKey(raw) == Some(k) && db[raw] == until;
      assert !IsGeneration(raw) by {
        forall q: nat ensures GenerationKey(q) != raw {
          ScanSkipsGenerations(p, q);
        }
      }
      var k' :| k' in entries && ValidKey(k') && KeyName(k') == raw;
      KeyRoundTrip(k');
      ScanSelects(p, k');
    }
    if k in entries && k.provider == p && entries[k] == until && now <= until {
      KeyRoundTrip(k);
      ScanSelects(p, k);
      assert KeyName(k) in db;
    }
  }
}
