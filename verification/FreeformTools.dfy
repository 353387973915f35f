/** Which of the client's tools are freeform: internal/converter/codex_freeform_tools.go. */
module FreeformTools {
  import opened Text

  /** A tool declaration; a missing field reads as "". */
  datatype Tool = Tool(toolType: string, name: string)

  function Lower(s: string): (r: string)
    ensures |r| == |s|
  {
    seq(|s|, k requires 0 <= k < |s| =>
      if 'A' <= s[k] <= 'Z' then (s[k] as int + 32) as char else s[k])
  }

  predicate IsFunction(t: Tool) {
    Lower(Trim(t.toolType)) == "function"
  }

  predicate IsFreeform(t: Tool) {
    Lower(Trim(t.toolType)) == "custom" || Lower(Trim(t.toolType)) == "freeform"
  }

  /** Some declaration makes `name` freeform and none makes it a function. */
  predicate Freeform(tools: seq<Tool>, name: string) {
    && name != ""
    && (exists t :: t in tools && IsFreeform(t) && t.name == name)
    && !(exists t :: t in tools && IsFunction(t) && t.name == name)
  }

  method CustomToolNames(tools: seq<Tool>) returns (names: set<string>)
    ensures forall n :: n in names <==> Freeform(tools, n)
  {
    hide Lower, Trim;
    var functionNames: set<string> := {};
    for i := 0 to |tools|
      invariant forall n :: n in functionNames <==>
          n != "" && exists k :: 0 <= k < i && IsFunction(tools[k]) && tools[k].name == n
    {
      if IsFunction(tools[i]) && tools[i].name != "" {
        functionNames := functionNames + {tools[i].name};
      }
    }
    names := {};
    for i := 0 to |tools|
      invariant forall n :: n in names <==>
                  n != "" && n !in functionNames && exists k :: 0 <= k < i && IsFreeform(tools[k]) && tools[k].name == n
    {
      if !IsFreeform(tools[i]) {
        continue;
      }
      if tools[i].name != "" && tools[i].name !in functionNames {
        names := names + {tools[i].name};
      }
    }
    forall n ensures n in names <==> Freeform(tools, n) {
      forall t | t in tools ensures exists k :: 0 <= k < |tools| && tools[k] == t {
      }
    }
  }

  /** No declaration is of both kinds. */
  lemma {:induction false} KindsDiffer(t: Tool)
    ensures !(IsFunction(t) && IsFreeform(t))
  {
    hide Lower, Trim;
    assert |"function"| == 8 && |"custom"| == 6 && "function"[1] != "freeform"[1];
  }

  /** A function declaration of the same name takes a tool out; the order does not matter. */
  lemma {:induction false} FunctionWins(before: seq<Tool>, after: seq<Tool>, t: Tool)
    requires IsFunction(t)
    ensures !Freeform(before + [t] + after, t.name)
    ensures forall n :: n != t.name ==> (Freeform(before + [t] + after, n) <==> Freeform(before + after, n))
  {
    hide Lower, Trim;
    KindsDiffer(t);
    var all, rest := before + [t] + after, before + after;
    assert t in all;
    assert forall u :: u in all <==> u in rest || u == t;
  }

  /** The same letters, whatever their case. */
  predicate SameLetters(s: string, word: string) {
    && |s| == |word|
    && forall k :: 0 <= k < |s| ==> s[k] == word[k] || ('A' <= s[k] <= 'Z' && s[k] as int + 32 == word[k] as int)
  }

  predicate Lowercase(word: string) {
    forall k :: 0 <= k < |word| ==> 'a' <= word[k] <= 'z'
  }

  lemma {:induction false} LowerExactly(s: string, word: string)
    requires Lowercase(word)
    ensures Lower(s) == word <==> SameLetters(s, word)
  {
    if SameLetters(s, word) {
      forall k | 0 <= k < |s| ensures Lower(s)[k] == word[k] {
        assert 'a' <= word[k] <= 'z';
      }
      assert Lower(s) == word;
    }
    if Lower(s) == word {
      forall k | 0 <= k < |s| ensures s[k] == word[k] || ('A' <= s[k] <= 'Z' && s[k] as int + 32 == word[k] as int) {
        assert Lower(s)[k] == word[k];
      }
    }
  }

  /** Case and surrounding white space of a type do not matter. */
  lemma {:induction false} TypesRead(t: Tool)
    ensures IsFunction(t) <==> SameLetters(Trim(t.toolType), "function")
    ensures IsFreeform(t) <==> SameLetters(Trim(t.toolType), "custom") || SameLetters(Trim(t.toolType), "freeform")
  {
    hide Trim, Lower, SameLetters;
    LowerExactly(Trim(t.toolType), "function");
    LowerExactly(Trim(t.toolType), "custom");
    LowerExactly(Trim(t.toolType), "freeform");
  }
}
