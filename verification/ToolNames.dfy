/** Tool names: the upstream takes at most 64 bytes, so longer names are shortened and made
    distinct on the way out and restored on the way back.
    internal/converter/tool_name.go, and its use in claude_to_codex.go and codex_to_claude.go. */
module ToolNames {
  import opened Options
  import opened Decimal

  const MAX_TOOL_NAME_LEN := 64

  function Cut(s: string, n: nat): string {
    if |s| > n then s[..n] else s
  }

  /** strings.LastIndex(s, "__"); -1 if there is none. */
  function LastDoubleUnderscore(s: string): (i: int)
    ensures -1 <= i <= |s| - 2 || i == -1
    ensures i >= 0 ==> s[i..i + 2] == "__"
    ensures forall j :: i < j <= |s| - 2 ==> s[j] != '_' || s[j + 1] != '_'
    decreases |s|
  {
    if |s| < 2 then -1
    else if s[|s| - 2] == '_' && s[|s| - 1] == '_' then |s| - 2
    else
      var i := LastDoubleUnderscore(s[..|s| - 1]);
      assert i >= 0 ==> s[i..i + 2] == s[..|s| - 1][i..i + 2];
      assert forall j :: 0 <= j < |s| - 1 ==> s[..|s| - 1][j] == s[j];
      i
  }

  function Shorten(name: string): (r: string)
    ensures |r| <= MAX_TOOL_NAME_LEN
    ensures |name| <= MAX_TOOL_NAME_LEN ==> r == name
    ensures name != "" ==> r != ""
  {
    if |name| <= MAX_TOOL_NAME_LEN then name
    else
      var i := LastDoubleUnderscore(name);
      if "mcp__" <= name && i > 3 then Cut("mcp__" + name[i + 2..], MAX_TOOL_NAME_LEN)
      else name[..MAX_TOOL_NAME_LEN]
  }

  predicate DoubleUnderscore(s: string, j: int) {
    0 <= j <= |s| - 2 && s[j] == '_' && s[j + 1] == '_'
  }

  /** A long name is cut after 64 bytes, unless it is an MCP name with a part of its own. */
  lemma {:induction false} ShortenPlain(name: string)
    requires |name| > MAX_TOOL_NAME_LEN
    requires "mcp__" <= name ==> forall j :: DoubleUnderscore(name, j) ==> j <= 3
    ensures Shorten(name) <= name && |Shorten(name)| == 64
  {
    var i := LastDoubleUnderscore(name);
    if i >= 0 {
      assert name[i..i + 2][0] == name[i] && name[i..i + 2][1] == name[i + 1];
      assert DoubleUnderscore(name, i);
    }
  }

  /** Of a long MCP name the part after the last two underscores survives, up to 59 bytes of it. */
  lemma {:induction false} ShortenMcp(server: string, tool: string)
    requires |server| > 3 && "mcp__" <= server + "__" + tool && |server + "__" + tool| > MAX_TOOL_NAME_LEN
    requires forall j :: !DoubleUnderscore("_" + tool, j)
    ensures Shorten(server + "__" + tool) == "mcp__" + (if |tool| <= 59 then tool else tool[..59])
  {
    var name := server + "__" + tool;
    var at := |server|;
    assert name[at] == '_' && name[at + 1] == '_';
    assert name[at + 2..] == tool;
    var i := LastDoubleUnderscore(name);
    assert i >= at;
    forall j | at < j <= |name| - 2 ensures name[j] != '_' || name[j + 1] != '_' {
      assert !DoubleUnderscore("_" + tool, j - at - 1);
      assert ("_" + tool)[j - at - 1] == name[j] && ("_" + tool)[j - at] == name[j + 1];
    }
    assert name[i..i + 2][0] == name[i] && name[i..i + 2][1] == name[i + 1];
    assert i == at;
    if |tool| > 59 {
      assert ("mcp__" + tool)[..64] == "mcp__" + tool[..59];
    }
  }

  // ---------------------------------------------------------------- a free name

  /** The i-th name tried for `base`. */
  function Variant(base: string, i: nat): string {
    var suffix := "_" + Itoa(i);
    Cut(base, if |suffix| <= MAX_TOOL_NAME_LEN then MAX_TOOL_NAME_LEN - |suffix| else 0) + suffix
  }

  /** Everything after the last underscore. */
  function Tail(s: string): string {
    if s == "" || s[|s| - 1] == '_' then "" else Tail(s[..|s| - 1]) + [s[|s| - 1]]
  }

  lemma {:induction false} TailOfDigits(a: string, d: string)
    requires AllDigits(d)
    ensures Tail(a + "_" + d) == d
    decreases |d|
  {
    var s := a + "_" + d;
    if d == "" {
      assert s == a + "_";
    } else {
      assert s[..|s| - 1] == a + "_" + d[..|d| - 1];
      assert IsDigit(d[|d| - 1]);
      TailOfDigits(a, d[..|d| - 1]);
    }
  }

  /** Different tries are different names. */
  lemma {:induction false} VariantsDiffer(base: string, i: nat, j: nat)
    requires Variant(base, i) == Variant(base, j)
    ensures i == j
  {
    VariantTail(base, i);
    VariantTail(base, j);
    ItoaInjective(i, j);
  }

  lemma {:induction false} VariantTail(base: string, i: nat)
    ensures Tail(Variant(base, i)) == Itoa(i)
  {
    var suffix := "_" + Itoa(i);
    var head := Cut(base, if |suffix| <= MAX_TOOL_NAME_LEN then MAX_TOOL_NAME_LEN - |suffix| else 0);
    assert head + suffix == head + "_" + Itoa(i);
    ItoaValue(i);
    TailOfDigits(head, Itoa(i));
  }

  predicate AllTaken(base: string, used: set<string>, i: nat) {
    forall j :: 1 <= j < i ==> Variant(base, j) in used
  }

  /** As many names are in use as were tried in vain. */
  lemma {:induction false} Pigeonhole(base: string, used: set<string>, i: nat)
    requires i >= 1 && AllTaken(base, used, i)
    ensures i <= |used| + 1
    decreases i
  {
    if i > 1 {
      var last := Variant(base, i - 1);
      assert last in used;
      forall j | 1 <= j < i - 1 ensures Variant(base, j) in used - {last} {
        if Variant(base, j) == last {
          VariantsDiffer(base, j, i - 1);
        }
      }
      Pigeonhole(base, used - {last}, i - 1);
    }
  }

  /** The first free try from `i` on: the search ends within |used| + 1 tries. */
  function FirstFree(base: string, used: set<string>, i: nat): (r: nat)
    requires i >= 1 && AllTaken(base, used, i)
    ensures i <= r <= |used| + 1 && Variant(base, r) !in used && AllTaken(base, used, r)
    decreases |used| + 1 - i
  {
    Pigeonhole(base, used, i);
    if Variant(base, i) !in used then i
    else
      assert AllTaken(base, used, i + 1);
      Pigeonhole(base, used, i + 1);
      FirstFree(base, used, i + 1)
  }

  function MakeUnique(cand: string, used: set<string>): (r: string)
    ensures r !in used && (cand !in used ==> r == cand)
  {
    if cand !in used then cand else Variant(cand, FirstFree(cand, used, 1))
  }

  lemma {:induction false} VariantFits(base: string, i: nat)
    requires i < Pow10(63)
    ensures 0 < |Variant(base, i)| <= MAX_TOOL_NAME_LEN
  {
    ItoaLength(i, 63);
  }

  lemma {:induction false} MakeUniqueFits(cand: string, used: set<string>)
    requires |cand| <= MAX_TOOL_NAME_LEN && |used| + 1 < Pow10(63)
    ensures |MakeUnique(cand, used)| <= MAX_TOOL_NAME_LEN
  {
    if cand in used {
      VariantFits(cand, FirstFree(cand, used, 1));
    }
  }

  // ---------------------------------------------------------------- the map

  datatype Names = Names(used: set<string>, short: map<string, string>)

  function Add(m: Names, n: string): Names {
    var uniq := MakeUnique(Shorten(n), m.used);
    Names(m.used + {uniq}, m.short[n := uniq])
  }

  function Build(names: seq<string>): Names {
    if names == [] then Names({}, map[]) else Add(Build(names[..|names| - 1]), names[|names| - 1])
  }

  function ShortNameMap(names: seq<string>): map<string, string> {
    Build(names).short
  }

  lemma {:induction false} BuildNext(names: seq<string>, i: nat)
    requires i < |names|
    ensures Build(names[..i + 1]) == Add(Build(names[..i]), names[i])
  {
    assert names[..i + 1][..i] == names[..i];
  }

  method MakeUniqueName(cand: string, used: set<string>) returns (uniq: string)
    ensures uniq == MakeUnique(cand, used)
  {
    if cand !in used {
      return cand;
    }
    var i := 1;
    while true
      invariant i >= 1 && AllTaken(cand, used, i) && FirstFree(cand, used, i) == FirstFree(cand, used, 1)
      decreases |used| + 1 - i
    {
      var suffix := "_" + Itoa(i);
      var allowed := MAX_TOOL_NAME_LEN - |suffix|;
      if allowed < 0 {
        allowed := 0;
      }
      var tmp := cand;
      if |tmp| > allowed {
        tmp := tmp[..allowed];
      }
      tmp := tmp + suffix;
      assert tmp == Variant(cand, i);
      if tmp !in used {
        return tmp;
      }
      assert AllTaken(cand, used, i + 1);
      Pigeonhole(cand, used, i + 1);
      i := i + 1;
    }
    assert false;
  }

  method BuildShortNameMap(names: seq<string>) returns (result: map<string, string>)
    ensures result == ShortNameMap(names)
  {
    var used: set<string> := {};
    result := map[];
    for k := 0 to |names|
      invariant Names(used, result) == Build(names[..k])
    {
      BuildNext(names, k);
      var uniq := MakeUniqueName(Shorten(names[k]), used);
      used := used + {uniq};
      result := result[names[k] := uniq];
    }
    assert names[..|names|] == names;
  }

  // ---------------------------------------------------------------- what the map is good for

  ghost predicate Injective(m: map<string, string>) {
    forall a, b :: a in m && b in m && m[a] == m[b] ==> a == b
  }

  /** Every name has a short name, short names are in use, and no two names share one. */
  lemma {:induction false} BuildInjective(names: seq<string>)
    ensures forall n :: n in names <==> n in ShortNameMap(names)
    ensures Injective(ShortNameMap(names))
    ensures forall n :: n in ShortNameMap(names) ==> ShortNameMap(names)[n] in Build(names).used
    ensures |Build(names).used| == |names|
    decreases |names|
  {
    hide MakeUnique, Shorten;
    if names != [] {
      var before, n := names[..|names| - 1], names[|names| - 1];
      BuildInjective(before);
      assert names == before + [n];
    }
  }

  /** With fewer than 10^63 names every short name has at most 64 bytes. */
  lemma {:induction false} BuildFits(names: seq<string>)
    requires |names| < Pow10(63)
    ensures forall n :: n in ShortNameMap(names) ==> |ShortNameMap(names)[n]| <= MAX_TOOL_NAME_LEN
    decreases |names|
  {
    hide MakeUnique, Pow10;
    if names != [] {
      var before, n := names[..|names| - 1], names[|names| - 1];
      BuildFits(before);
      BuildInjective(before);
      MakeUniqueFits(Shorten(n), Build(before).used);
    }
  }

  predicate Distinct(names: seq<string>) {
    forall i, j :: 0 <= i < j < |names| ==> names[i] != names[j]
  }

  predicate AllShort(names: seq<string>) {
    forall i :: 0 <= i < |names| ==> |names[i]| <= MAX_TOOL_NAME_LEN
  }

  ghost predicate IsIdentity(m: map<string, string>) {
    forall n :: n in m ==> m[n] == n
  }

  lemma {:induction false} ShortDistinctKept(names: seq<string>)
    requires Distinct(names) && AllShort(names)
    ensures IsIdentity(ShortNameMap(names)) && forall n :: n in Build(names).used <==> n in names
    decreases |names|
  {
    hide MakeUnique;
    if names != [] {
      var before, n := names[..|names| - 1], names[|names| - 1];
      assert forall i :: 0 <= i < |before| ==> names[i] == before[i];
      ShortDistinctKept(before);
      assert n !in before;
      assert names == before + [n];
    }
  }

  /** What was once mapped to itself is in use, so a second time it is mapped elsewhere. */
  lemma {:induction false} ShortNamesUsed(names: seq<string>, n: string)
    requires n in names && |n| <= MAX_TOOL_NAME_LEN
    ensures n in Build(names).used
    decreases |names|
  {
    hide Variant, FirstFree;
    var before, last := names[..|names| - 1], names[|names| - 1];
    assert names == before + [last];
    if n in before {
      ShortNamesUsed(before, n);
    }
  }

  lemma {:induction false} RepeatMoves(names: seq<string>, i: nat, j: nat)
    requires i < j < |names| && names[i] == names[j] && |names[i]| <= MAX_TOOL_NAME_LEN
    ensures names[i] in ShortNameMap(names) && ShortNameMap(names)[names[i]] != names[i]
    decreases |names|
  {
    hide MakeUnique;
    var before, last := names[..|names| - 1], names[|names| - 1];
    assert before[i] == names[i];
    ShortNamesUsed(before, names[i]);
    if last != names[i] {
      assert before[j] == names[j];
      RepeatMoves(before, i, j);
    }
  }

  /** The map changes nothing exactly when the names are distinct and short enough. */
  lemma {:induction false} IdentityExactly(names: seq<string>)
    requires |names| < Pow10(63)
    ensures IsIdentity(ShortNameMap(names)) <==> Distinct(names) && AllShort(names)
  {
    hide ShortNameMap, Pow10;
    if Distinct(names) && AllShort(names) {
      ShortDistinctKept(names);
    } else if !AllShort(names) {
      var i :| 0 <= i < |names| && |names[i]| > MAX_TOOL_NAME_LEN;
      BuildInjective(names);
      BuildFits(names);
      assert names[i] in names;
    } else {
      var i, j :| 0 <= i < j < |names| && names[i] == names[j];
      RepeatMoves(names, i, j);
    }
  }

  // ---------------------------------------------------------------- there and back

  /** A tool of the client's request; `name` is None when the field is missing. */
  datatype Tool = Tool(toolType: string, name: Option<string>)

  /** The names the request side shortens: tools without a type, with a name that is not empty. */
  function RequestNames(tools: seq<Tool>): seq<string> {
    if tools == [] then []
    else
      var t, before := tools[|tools| - 1], RequestNames(tools[..|tools| - 1]);
      if t.toolType == "" && t.name.Some? && t.name.value != "" then before + [t.name.value] else before
  }

  /** The names the response side shortens again: here an empty name counts. */
  function ResponseNames(tools: seq<Tool>): seq<string> {
    if tools == [] then []
    else
      var t, before := tools[|tools| - 1], ResponseNames(tools[..|tools| - 1]);
      if t.toolType == "" && t.name.Some? then before + [t.name.value] else before
  }

  /** The name sent upstream for a tool use. */
  function Outgoing(tools: seq<Tool>, name: string): string {
    var m := ShortNameMap(RequestNames(tools));
    if name in m then m[name] else Shorten(name)
  }

  ghost predicate IsReverse(rev: map<string, string>, m: map<string, string>) {
    && (forall s :: s in rev ==> rev[s] in m && m[rev[s]] == s)
    && (forall n :: n in m ==> m[n] in rev)
  }

  /** The reverse map, whatever the order of the range over `m`: `order` lists the names of `m`. */
  method ReverseMap(m: map<string, string>, order: seq<string>) returns (rev: map<string, string>)
    requires forall n :: n in order <==> n in m
    ensures IsReverse(rev, m)
  {
    rev := map[];
    for k := 0 to |order|
      invariant forall s :: s in rev ==> rev[s] in m && m[rev[s]] == s
      invariant forall i :: 0 <= i < k ==> m[order[i]] in rev
    {
      assert order[k] in m;
      rev := rev[m[order[k]] := order[k]];
    }
    forall n | n in m ensures m[n] in rev {
      var i :| 0 <= i < |order| && order[i] == n;
    }
  }

  /** The name given to the client for the upstream's `name`. */
  function Incoming(rev: map<string, string>, name: string): string {
    if name in rev then rev[name] else name
  }

  predicate Empty(t: Tool) {
    t == Tool("", Some(""))
  }

  /** At most one tool without a type has an empty name. */
  predicate OneEmptyAtMost(tools: seq<Tool>) {
    forall i, j :: 0 <= i < j < |tools| && Empty(tools[i]) ==> !Empty(tools[j])
  }

  predicate NoneEmpty(tools: seq<Tool>) {
    forall i :: 0 <= i < |tools| ==> !Empty(tools[i])
  }

  lemma {:induction false} NamesNotEmpty(tools: seq<Tool>)
    ensures "" !in RequestNames(tools)
    ensures NoneEmpty(tools) ==> ResponseNames(tools) == RequestNames(tools)
    decreases |tools|
  {
    if tools != [] {
      var before := tools[..|tools| - 1];
      NamesNotEmpty(before);
      assert NoneEmpty(tools) ==> NoneEmpty(before);
    }
  }

  lemma {:induction false} VariantNotEmpty(base: string, i: nat)
    ensures Variant(base, i) != ""
  {
  }

  /** A used empty name changes the choice for no other name. */
  lemma {:induction false} EmptyUsed(base: string, used: set<string>, i: nat)
    requires i >= 1 && AllTaken(base, used, i)
    ensures AllTaken(base, used + {""}, i)
    ensures FirstFree(base, used + {""}, i) == FirstFree(base, used, i)
    decreases |used| + 1 - i
  {
    hide Variant;
    Pigeonhole(base, used, i);
    VariantNotEmpty(base, i);
    if Variant(base, i) in used {
      assert AllTaken(base, used, i + 1);
      Pigeonhole(base, used, i + 1);
      EmptyUsed(base, used, i + 1);
    }
  }

  /** The two maps differ in the empty name alone, if `more` says that it is there at all. */
  predicate Beside(q: Names, p: Names, more: bool) {
    "" !in q.used && p == if more then Names(q.used + {""}, q.short["" := ""]) else q
  }

  lemma {:induction false} AddOther(q: Names, p: Names, more: bool, n: string)
    requires Beside(q, p, more) && n != ""
    ensures Beside(Add(q, n), Add(p, n), more)
  {
    hide Variant, FirstFree;
    var cand := Shorten(n);
    if cand in q.used {
      EmptyUsed(cand, q.used, 1);
      VariantNotEmpty(cand, FirstFree(cand, q.used, 1));
    }
    var uniq := MakeUnique(cand, q.used);
    assert more ==> MakeUnique(cand, q.used + {""}) == uniq;
    assert q.used + {""} + {uniq} == q.used + {uniq} + {""};
    assert q.short["" := ""][n := uniq] == q.short[n := uniq]["" := ""];
  }

  lemma {:induction false} AddEmpty(q: Names)
    requires "" !in q.used
    ensures Beside(q, Add(q, ""), true)
  {
  }

  /** One empty name more leaves the short names of the others alone. */
  lemma {:induction false} SideBySide(tools: seq<Tool>)
    requires OneEmptyAtMost(tools)
    ensures Beside(Build(RequestNames(tools)), Build(ResponseNames(tools)), !NoneEmpty(tools))
    decreases |tools|
  {
    hide Build, Add, Beside;
    if tools == [] {
      assert Beside(Build([]), Build([]), false) by { EmptyBeside(); }
    } else {
      var before, t := tools[..|tools| - 1], tools[|tools| - 1];
      assert forall i :: 0 <= i < |before| ==> tools[i] == before[i];
      SideBySide(before);
      var q, p := RequestNames(before), ResponseNames(before);
      assert NoneEmpty(tools) <==> NoneEmpty(before) && !Empty(t);
      if Empty(t) {
        assert NoneEmpty(before);
        BesideNone(Build(q), Build(p));
        AddEmpty(Build(q));
        NextName(p, "");
      } else if t.toolType == "" && t.name.Some? {
        AddOther(Build(q), Build(p), !NoneEmpty(before), t.name.value);
        NextName(q, t.name.value);
        NextName(p, t.name.value);
      }
    }
  }

  lemma {:induction false} EmptyBeside()
    ensures Beside(Build([]), Build([]), false)
  {
  }

  lemma {:induction false} BesideNone(q: Names, p: Names)
    requires Beside(q, p, false)
    ensures p == q && "" !in q.used
  {
  }

  lemma {:induction false} NextName(names: seq<string>, n: string)
    ensures Build(names + [n]) == Add(Build(names), n)
  {
    assert (names + [n])[..|names|] == names;
  }

  /** The client's own name comes back for every name sent upstream, if at most one of its untyped
      tools has an empty name. */
  lemma {:induction false} RoundTrip(tools: seq<Tool>, name: string, rev: map<string, string>)
    requires OneEmptyAtMost(tools) && name in RequestNames(tools)
    requires IsReverse(rev, ShortNameMap(ResponseNames(tools)))
    ensures Incoming(rev, Outgoing(tools, name)) == name
  {
    hide Build, RequestNames, ResponseNames;
    SideBySide(tools);
    BuildInjective(RequestNames(tools));
    BuildInjective(ResponseNames(tools));
    NamesNotEmpty(tools);
    var q, p := ShortNameMap(RequestNames(tools)), ShortNameMap(ResponseNames(tools));
    assert name in q && name in p && p[name] == q[name];
    assert rev[p[name]] in p && p[rev[p[name]]] == p[name];
  }

  lemma {:induction false} FewerNames(tools: seq<Tool>)
    ensures |RequestNames(tools)| <= |tools|
  {
    if tools != [] {
      FewerNames(tools[..|tools| - 1]);
    }
  }

  /** Whatever tool is named, declared or not, its name fits upstream; a short one that was not declared
      goes out as it is. */
  lemma {:induction false} OutgoingFits(tools: seq<Tool>, name: string)
    requires |tools| < Pow10(63)
    ensures |Outgoing(tools, name)| <= 64
    ensures name !in RequestNames(tools) && |name| <= 64 ==> Outgoing(tools, name) == name
  {
    hide Pow10, Build, RequestNames;
    FewerNames(tools);
    BuildFits(RequestNames(tools));
    BuildInjective(RequestNames(tools));
  }

  /** A name that stands for no tool of the request comes back unchanged. */
  lemma {:induction false} IncomingUnknown(names: seq<string>, rev: map<string, string>, name: string)
    requires IsReverse(rev, ShortNameMap(names)) && name !in ShortNameMap(names).Values
    ensures Incoming(rev, name) == name
  {
    hide Build;
    BuildInjective(names);
  }

  // ---------------------------------------------------------------- several empty names

  function EmptyCount(tools: seq<Tool>): nat {
    if tools == [] then 0
    else EmptyCount(tools[..|tools| - 1]) + if Empty(tools[|tools| - 1]) then 1 else 0
  }

  /** Every name sent upstream comes back as the client's own, whatever the reverse map. */
  ghost predicate GivesBack(tools: seq<Tool>) {
    forall name, rev :: name in RequestNames(tools) && IsReverse(rev, ShortNameMap(ResponseNames(tools))) ==>
      Incoming(rev, Outgoing(tools, name)) == name
  }

  lemma {:induction false} FewEmpty(tools: seq<Tool>)
    ensures EmptyCount(tools) == 0 ==> NoneEmpty(tools)
    ensures EmptyCount(tools) <= 1 ==> OneEmptyAtMost(tools)
    decreases |tools|
  {
    if tools != [] {
      var before := tools[..|tools| - 1];
      FewEmpty(before);
      assert forall i :: 0 <= i < |before| ==> tools[i] == before[i];
    }
  }

  function Empties(m: nat): seq<Tool> {
    if m == 0 then [] else Empties(m - 1) + [Tool("", Some(""))]
  }

  function EmptyNames(m: nat): seq<string> {
    if m == 0 then [] else EmptyNames(m - 1) + [""]
  }

  /** So many empty names, then `_1` and `_1_1`. */
  function Crowded(m: nat): seq<Tool> {
    Empties(m) + [Tool("", Some("_1"))] + [Tool("", Some("_1_1"))]
  }

  lemma {:induction false} EmptiesNames(m: nat)
    ensures EmptyCount(Empties(m)) == m && RequestNames(Empties(m)) == [] && ResponseNames(Empties(m)) == EmptyNames(m)
  {
    if m > 0 {
      EmptiesNames(m - 1);
      assert Empties(m)[..|Empties(m)| - 1] == Empties(m - 1);
    }
  }

  lemma {:induction false} NextTool(tools: seq<Tool>, n: string)
    requires n != ""
    ensures var more := tools + [Tool("", Some(n))];
            && EmptyCount(more) == EmptyCount(tools)
            && RequestNames(more) == RequestNames(tools) + [n] && ResponseNames(more) == ResponseNames(tools) + [n]
  {
    assert (tools + [Tool("", Some(n))])[..|tools|] == tools;
  }

  lemma {:induction false} CrowdedNames(m: nat)
    ensures EmptyCount(Crowded(m)) == m
    ensures RequestNames(Crowded(m)) == ["_1", "_1_1"]
    ensures ResponseNames(Crowded(m)) == EmptyNames(m) + ["_1"] + ["_1_1"]
  {
    EmptiesNames(m);
    NextTool(Empties(m), "_1");
    NextTool(Empties(m) + [Tool("", Some("_1"))], "_1_1");
  }

  /** The second empty name takes `_1`; none takes `_1_1`. */
  lemma {:induction false} EmptiesUse(m: nat)
    ensures var used := Build(EmptyNames(m)).used;
            && (m >= 1 ==> "" in used) && (m >= 2 ==> "_1" in used)
            && (m == 1 ==> used == {""}) && (m == 0 ==> used == {})
            && "_1_1" !in used
  {
    hide FirstFree;
    if m > 0 {
      EmptiesUse(m - 1);
      NextName(EmptyNames(m - 1), "");
      var used := Build(EmptyNames(m - 1)).used;
      if m >= 2 {
        NotTwice(FirstFree("", used, 1));
      }
      if m == 2 {
        SecondEmpty();
      }
    }
  }

  lemma {:induction false} NotTwice(i: nat)
    ensures Variant("", i) != "_1_1"
  {
    VariantTail("", i);
    assert |Variant("", i)| == 1 + |Tail(Variant("", i))|;
    assert "_1_1"[..3] == "_1_" && Tail("_1_") == "";
    assert |Tail("_1_1")| == 1;
  }

  lemma {:induction false} SecondEmpty()
    ensures MakeUnique("", {""}) == "_1"
  {
    assert Itoa(1) == "1";
    assert Variant("", 1) == "_1";
    assert FirstFree("", {""}, 1) == 1;
  }

  /** A used `_1` becomes `_1_1`, if that is free. */
  lemma {:induction false} MovesOn(used: set<string>)
    requires "_1" in used && "_1_1" !in used
    ensures MakeUnique("_1", used) == "_1_1"
  {
    assert Itoa(1) == "1";
    assert Variant("_1", 1) == "_1_1";
    assert FirstFree("_1", used, 1) == 1;
  }

  lemma {:induction false} CrowdedShort(m: nat)
    requires m >= 2
    ensures var p := ShortNameMap(ResponseNames(Crowded(m))); "_1" in p && p["_1"] == "_1_1"
    ensures Outgoing(Crowded(m), "_1_1") == "_1_1"
  {
    hide Build, MakeUnique, RequestNames, ResponseNames;
    CrowdedNames(m);
    EmptiesUse(m);
    MovesOn(Build(EmptyNames(m)).used);
    NextName(EmptyNames(m), "_1");
    NextName(EmptyNames(m) + ["_1"], "_1_1");
    ShortDistinctKept(["_1", "_1_1"]);
    BuildInjective(["_1", "_1_1"]);
  }

  /** With two empty names or more, a tool `_1_1` behind a tool `_1` comes back as `_1`: an empty name
      has taken `_1` on the response side alone, and `_1` has moved on to `_1_1`. */
  lemma {:induction false} EmptyNamesLose(m: nat, rev: map<string, string>)
    requires m >= 2 && IsReverse(rev, ShortNameMap(ResponseNames(Crowded(m))))
    ensures "_1_1" in RequestNames(Crowded(m)) && Incoming(rev, Outgoing(Crowded(m), "_1_1")) == "_1"
  {
    hide ShortNameMap, RequestNames, ResponseNames, Outgoing;
    CrowdedNames(m);
    CrowdedShort(m);
    BuildInjective(ResponseNames(Crowded(m)));
    var p := ShortNameMap(ResponseNames(Crowded(m)));
    assert p["_1"] in rev && p[rev["_1_1"]] == p["_1"];
  }

  lemma {:induction false} HasReverse(names: seq<string>) returns (rev: map<string, string>)
    ensures IsReverse(rev, ShortNameMap(names))
  {
    hide ShortNameMap;
    BuildInjective(names);
    var m := ShortNameMap(names);
    rev := map n | n in m :: m[n] := n;
  }

  /** So many empty names do no harm to any list of tools: none, or one. */
  lemma {:induction false} RoundTripExactly(m: nat)
    ensures m <= 1 <==> forall tools :: EmptyCount(tools) == m ==> GivesBack(tools)
  {
    hide Build, RequestNames, ResponseNames, Incoming, Outgoing;
    if m <= 1 {
      forall tools, name, rev | EmptyCount(tools) == m && name in RequestNames(tools)
          && IsReverse(rev, ShortNameMap(ResponseNames(tools)))
        ensures Incoming(rev, Outgoing(tools, name)) == name
      {
        FewEmpty(tools);
        RoundTrip(tools, name, rev);
      }
    } else {
      CrowdedNames(m);
      var rev := HasReverse(ResponseNames(Crowded(m)));
      EmptyNamesLose(m, rev);
      assert !GivesBack(Crowded(m));
    }
  }
}
