// Prompt-template utilities: placeholder matching for the pattern
// \{([^{}]+)\}|\{\{([^{}]+)\}\}, template rendering, placeholder extraction,
// and the rich-text-to-plain-text conversion applied before both.
// A null template or map is modelled as the empty one; a null map value as None.
module PromptUtil {
  import opened Wrappers
  import opened JStrings

  // ------------------------------------------------------ the placeholder regex

  predicate IsBrace(c: char) { c == '{' || c == '}' }

  /** First index at or after from holding a brace, or |t|. */
  function NextBrace(t: string, from: nat): (j: nat)
    requires from <= |t|
    ensures from <= j <= |t|
    ensures j < |t| ==> IsBrace(t[j])
    decreases |t| - from
  {
    if from == |t| || IsBrace(t[from]) then from else NextBrace(t, from + 1)
  }

  /** No brace lies between from and NextBrace(t, from). */
  lemma {:induction false} NextBraceSkipsNoBrace(t: string, from: nat, k: nat)
    requires from <= |t| && from <= k < NextBrace(t, from)
    ensures !IsBrace(t[k])
    decreases |t| - from
  {
    if k > from {
      NextBraceSkipsNoBrace(t, from + 1, k);
    }
  }

  lemma {:induction false} NextBraceAt(t: string, from: nat, j: nat)
    requires from <= j <= |t|
    requires forall k :: from <= k < j ==> !IsBrace(t[k])
    requires j < |t| ==> IsBrace(t[j])
    ensures NextBrace(t, from) == j
    decreases j - from
  {
    if from < j {
      NextBraceAt(t, from + 1, j);
    }
  }

  /** A placeholder occurrence: its length and the name captured by group 1 or 2. */
  datatype Match = Match(len: nat, nameStart: nat, nameEnd: nat)

  /** A match m at position i lies within s. */
  predicate Fits(s: string, i: nat, m: Match)
  {
    i + m.len <= |s| && m.nameStart <= m.nameEnd <= |s|
  }

  /** The captured name of a match m at some position of s. */
  function NameOf(s: string, m: Match): string
    requires m.nameStart <= m.nameEnd <= |s|
  {
    s[m.nameStart..m.nameEnd]
  }

  /** The regex tried at position i of s: first "{name}", then "{{name}}", where
      name is one or more non-brace characters. */
  function MatchAt(s: string, i: nat): (m: Option<Match>)
    requires i <= |s|
    ensures m.Some? ==> 3 <= m.value.len && Fits(s, i, m.value)
    ensures m.Some? ==> i < m.value.nameStart <= m.value.nameEnd < i + m.value.len
  {
    if i + 3 <= |s| && s[i] == '{' then
      if !IsBrace(s[i + 1]) then
        var j := NextBrace(s, i + 1);
        if j < |s| && s[j] == '}' then Some(Match(j + 1 - i, i + 1, j)) else None
      else if s[i + 1] == '{' then
        var j := NextBrace(s, i + 2);
        if j > i + 2 && j + 1 < |s| && s[j] == '}' && s[j + 1] == '}' then Some(Match(j + 2 - i, i + 2, j)) else None
      else None
    else None
  }

  /** Matcher.find from position from: the first position with a match. */
  function FindFrom(s: string, from: nat): (r: Option<nat>)
    requires from <= |s|
    ensures r.Some? ==> from <= r.value < |s| && MatchAt(s, r.value).Some?
    decreases |s| - from
  {
    if from == |s| then None
    else if MatchAt(s, from).Some? then Some(from)
    else FindFrom(s, from + 1)
  }

  /** A match is "{name}" or "{{name}}" with a non-empty, brace-free name. */
  lemma MatchShape(s: string, i: nat)
    requires i <= |s| && MatchAt(s, i).Some?
    ensures var m := MatchAt(s, i).value;
            s[i] == '{' && s[i + m.len - 1] == '}' && NameOf(s, m) != []
            && (forall c :: c in NameOf(s, m) ==> !IsBrace(c))
            && ((m.nameStart == i + 1 && m.nameEnd == i + m.len - 1)
                || (m.nameStart == i + 2 && m.nameEnd == i + m.len - 2))
  {
    var m := MatchAt(s, i).value;
    if !IsBrace(s[i + 1]) {
      var j := NextBrace(s, i + 1);
      forall k | i + 1 <= k < j ensures !IsBrace(s[k]) {
        NextBraceSkipsNoBrace(s, i + 1, k);
      }
      assert forall c :: c in s[i + 1..j] ==> !IsBrace(c);
    } else {
      var j := NextBrace(s, i + 2);
      forall k | i + 2 <= k < j ensures !IsBrace(s[k]) {
        NextBraceSkipsNoBrace(s, i + 2, k);
      }
      assert forall c :: c in s[i + 2..j] ==> !IsBrace(c);
    }
  }

  /** No match lies between from and the one FindFrom reports. */
  lemma {:induction false} FindFromNoEarlier(s: string, from: nat, k: nat)
    requires from <= |s| && FindFrom(s, from).Some? && from <= k < FindFrom(s, from).value
    ensures MatchAt(s, k).None?
    decreases |s| - from
  {
    if k > from {
      FindFromNoEarlier(s, from + 1, k);
    }
  }

  /** When FindFrom reports nothing, there is no match at or after from. */
  lemma {:induction false} FindFromNoneNoMatch(s: string, from: nat, k: nat)
    requires from <= k < |s| && FindFrom(s, from).None?
    ensures MatchAt(s, k).None?
    decreases |s| - from
  {
    if k > from {
      FindFromNoneNoMatch(s, from + 1, k);
    }
  }

  /** "{name}" at position i is a match capturing name. */
  lemma SingleBraceForm(s: string, i: nat, j: nat)
    requires i + 1 < j < |s| && s[i] == '{' && s[j] == '}'
    requires forall k :: i < k < j ==> !IsBrace(s[k])
    ensures MatchAt(s, i) == Some(Match(j + 1 - i, i + 1, j))
  {
    NextBraceAt(s, i + 1, j);
  }

  /** "{{name}}" at position i is a match capturing name. */
  lemma DoubleBraceForm(s: string, i: nat, j: nat)
    requires i + 2 < j && j + 1 < |s| && s[i] == '{' && s[i + 1] == '{' && s[j] == '}' && s[j + 1] == '}'
    requires forall k :: i + 1 < k < j ==> !IsBrace(s[k])
    ensures MatchAt(s, i) == Some(Match(j + 2 - i, i + 2, j))
  {
    NextBraceAt(s, i + 2, j);
  }

  // ---------------------------------------------------------------- rendering

  /** What StringBuilder.append writes for a map value. */
  function ValueText(v: Option<string>): string
  {
    if v.Some? then v.value else "null"
  }

  /** What the matcher appends for a match m at position i: the value of a known
      name, or the matched text itself. */
  function Replacement(s: string, i: nat, m: Match, vars: map<string, Option<string>>): string
    requires Fits(s, i, m)
  {
    if NameOf(s, m) in vars then ValueText(vars[NameOf(s, m)]) else s[i..i + m.len]
  }

  /** Placeholder substitution from position i, match by match: the text up to
      the next match is copied, a placeholder with a known name becomes its value,
      an unknown one is kept verbatim, and the text after the last match is copied. */
  function RenderFrom(s: string, i: nat, vars: map<string, Option<string>>): (r: string)
    requires i <= |s|
    decreases |s| - i, 1
  {
    var f := FindFrom(s, i);
    if f.None? then s[i..]
    else RenderAt(s, i, f.value, MatchAt(s, f.value).value, vars)
  }

  /** The rendering from i when the next match is m, at k. */
  function RenderAt(s: string, i: nat, k: nat, m: Match, vars: map<string, Option<string>>): (r: string)
    requires i <= k && Fits(s, k, m) && 1 <= m.len
    decreases |s| - k, 0
  {
    s[i..k] + Replacement(s, k, m, vars) + RenderFrom(s, k + m.len, vars)
  }

  function Render(s: string, vars: map<string, Option<string>>): string
  {
    RenderFrom(s, 0, vars)
  }

  /** The placeholder names of s from position i, in the order the matcher finds them. */
  function NamesFrom(s: string, i: nat): (ns: seq<string>)
    requires i <= |s|
    decreases |s| - i
  {
    var f := FindFrom(s, i);
    if f.None? then []
    else
      var k := f.value;
      var m := MatchAt(s, k).value;
      [NameOf(s, m)] + NamesFrom(s, k + m.len)
  }

  function Names(s: string): seq<string>
  {
    NamesFrom(s, 0)
  }

  /** The matcher's next find from a position is the first match at or after it. */
  lemma {:induction false} FindFromFirst(s: string, from: nat, i: nat)
    requires from <= i < |s|
    requires forall k :: from <= k < i ==> MatchAt(s, k).None?
    requires MatchAt(s, i).Some?
    ensures FindFrom(s, from) == Some(i)
    decreases i - from
  {
    if from < i {
      FindFromFirst(s, from + 1, i);
    }
  }

  /** A known placeholder, in either form, that is the next match after from is
      replaced by its value; the text before it is copied. */
  lemma KnownPlaceholderReplaced(s: string, from: nat, i: nat, j: nat, vars: map<string, Option<string>>)
    requires from <= i && i + 1 < j < |s| && s[i] == '{' && s[j] == '}'
    requires forall k :: i < k < j ==> !IsBrace(s[k])
    requires forall k :: from <= k < i ==> MatchAt(s, k).None?
    requires s[i + 1..j] in vars
    ensures RenderFrom(s, from, vars) == s[from..i] + ValueText(vars[s[i + 1..j]]) + RenderFrom(s, j + 1, vars)
  {
    SingleBraceForm(s, i, j);
    FindFromFirst(s, from, i);
  }

  lemma KnownDoublePlaceholderReplaced(s: string, from: nat, i: nat, j: nat, vars: map<string, Option<string>>)
    requires from <= i && i + 2 < j && j + 1 < |s| && s[i] == '{' && s[i + 1] == '{' && s[j] == '}' && s[j + 1] == '}'
    requires forall k :: i + 1 < k < j ==> !IsBrace(s[k])
    requires forall k :: from <= k < i ==> MatchAt(s, k).None?
    requires s[i + 2..j] in vars
    ensures RenderFrom(s, from, vars) == s[from..i] + ValueText(vars[s[i + 2..j]]) + RenderFrom(s, j + 2, vars)
  {
    DoubleBraceForm(s, i, j);
    FindFromFirst(s, from, i);
  }

  /** One step of the rendering: the next match is m, at k. */
  lemma RenderFromStep(s: string, i: nat, k: nat, m: Match, vars: map<string, Option<string>>)
    requires i <= |s| && FindFrom(s, i) == Some(k) && MatchAt(s, k) == Some(m)
    ensures k + m.len <= |s|
    ensures RenderFrom(s, i, vars) == RenderAt(s, i, k, m, vars)
  {
  }

  lemma RenderAtUnfold(s: string, i: nat, k: nat, m: Match, vars: map<string, Option<string>>)
    requires i <= k && Fits(s, k, m) && 1 <= m.len
    ensures RenderAt(s, i, k, m, vars) == s[i..k] + Replacement(s, k, m, vars) + RenderFrom(s, k + m.len, vars)
  {
  }

  /** The rendering from i splits at the next match m, at k. */
  lemma RenderFromSplit(s: string, i: nat, k: nat, m: Match, vars: map<string, Option<string>>)
    requires i <= |s| && FindFrom(s, i) == Some(k) && MatchAt(s, k) == Some(m)
    ensures k + m.len <= |s|
    ensures RenderFrom(s, i, vars) == s[i..k] + Replacement(s, k, m, vars) + RenderFrom(s, k + m.len, vars)
  {
    RenderFromStep(s, i, k, m, vars);
    RenderAtUnfold(s, i, k, m, vars);
  }

  lemma NamesFromStep(s: string, i: nat, k: nat, m: Match)
    requires i <= |s| && FindFrom(s, i) == Some(k) && MatchAt(s, k) == Some(m)
    ensures k + m.len <= |s|
    ensures NamesFrom(s, i) == [NameOf(s, m)] + NamesFrom(s, k + m.len)
  {
  }

  /** Moving the next element of x from the pending part to the produced part. */
  lemma RegroupOne<T>(done: seq<T>, x: seq<T>, a: T, rest: seq<T>, total: seq<T>, done': seq<T>)
    requires done + x == total && x == [a] + rest && done' == done + [a]
    ensures done' + rest == total
  {
  }

  /** Moving the next two pieces of x from the pending part to the produced part. */
  lemma Regroup<T>(done: seq<T>, x: seq<T>, a: seq<T>, b: seq<T>, rest: seq<T>, total: seq<T>, done': seq<T>)
    requires done + x == total && x == a + b + rest && done' == done + a + b
    ensures done' + rest == total
  {
  }

  lemma SliceSplit3(s: string, i: nat, k: nat, e: nat)
    requires i <= k <= e <= |s|
    ensures s[i..k] + s[k..e] + s[e..] == s[i..]
  {
    assert s[i..] == s[i..k] + s[k..];
    assert s[k..] == s[k..e] + s[e..];
  }

  lemma RenderFromNone(s: string, i: nat, vars: map<string, Option<string>>)
    requires i <= |s| && FindFrom(s, i).None?
    ensures RenderFrom(s, i, vars) == s[i..]
  {
  }

  lemma NamesFromNone(s: string, i: nat)
    requires i <= |s| && FindFrom(s, i).None?
    ensures NamesFrom(s, i) == []
  {
  }

  /** An unknown placeholder is copied verbatim. */
  lemma UnknownPlaceholderStep(s: string, i: nat, k: nat, m: Match, vars: map<string, Option<string>>)
    requires i <= |s| && FindFrom(s, i) == Some(k) && MatchAt(s, k) == Some(m) && NameOf(s, m) !in vars
    requires k + m.len <= |s| && RenderFrom(s, k + m.len, vars) == s[k + m.len..]
    ensures RenderFrom(s, i, vars) == s[i..]
  {
    RenderFromSplit(s, i, k, m, vars);
    SliceSplit3(s, i, k, k + m.len);
  }

  /** A text none of whose placeholder names is known renders to itself. */
  lemma {:induction false} UnknownPlaceholdersKept(s: string, i: nat, vars: map<string, Option<string>>)
    requires i <= |s|
    requires forall n :: n in NamesFrom(s, i) ==> n !in vars
    ensures RenderFrom(s, i, vars) == s[i..]
    decreases |s| - i
  {
    var f := FindFrom(s, i);
    if f.None? {
      RenderFromNone(s, i, vars);
    } else {
      var k := f.value;
      var m := MatchAt(s, k).value;
      NamesFromStep(s, i, k, m);
      UnknownPlaceholdersKept(s, k + m.len, vars);
      UnknownPlaceholderStep(s, i, k, m, vars);
    }
  }

  /** containsPlaceholder: Matcher.find on the text. */
  function ContainsPlaceholder(text: string): (b: bool)
    ensures b ==> exists i :: 0 <= i < |text| && MatchAt(text, i).Some?
  {
    text != [] && FindFrom(text, 0).Some?
  }

  /** Without a reported placeholder there is no match anywhere in the text. */
  lemma NoPlaceholderNoMatch(text: string)
    requires !ContainsPlaceholder(text)
    ensures forall i :: 0 <= i < |text| ==> MatchAt(text, i).None?
  {
    forall i | 0 <= i < |text| ensures MatchAt(text, i).None? {
      FindFromNoneNoMatch(text, 0, i);
    }
  }

  /** A text contains a placeholder exactly when it has a placeholder name. */
  lemma ContainsPlaceholderIffNames(s: string)
    ensures ContainsPlaceholder(s) <==> Names(s) != []
  {
  }

  // -------------------------------------------------------- rich text to plain

  const OpsPrefix: string := "{\"ops\":"
  const InsertKey: string := "\"insert\":"
  const AttributesKey: string := "\"attributes\":"

  /** The whole-string pattern \{"ops":.+\}, where . excludes line terminators. */
  predicate IsQuillJson(s: string)
  {
    |s| >= |OpsPrefix| + 2 && StartsWith(s, OpsPrefix) && s[|s| - 1] == '}'
    && forall i :: |OpsPrefix| <= i < |s| - 1 ==> !LineTerminator(s[i])
  }

  /** End of the lazy "attributes":.+?\} alternative at the start of t: the first
      '}' after at least one character, none of them a line terminator. */
  function AttributesEnd(t: string, k: nat): (e: Option<nat>)
    requires |AttributesKey| < k <= |t|
    ensures e.Some? ==> k < e.value <= |t| && t[e.value - 1] == '}'
    decreases |t| - k
  {
    if k == |t| || LineTerminator(t[k - 1]) then None
    else if t[k] == '}' then Some(k + 1)
    else AttributesEnd(t, k + 1)
  }

  /** replaceAll of {"ops": | } | [ | ] | "insert": | "attributes":.+?} | , by a space. */
  function StripQuill(t: string): (r: string)
    decreases |t|
  {
    if t == [] then []
    else if StartsWith(t, OpsPrefix) then " " + StripQuill(t[|OpsPrefix|..])
    else if t[0] == '}' || t[0] == '[' || t[0] == ']' then " " + StripQuill(t[1..])
    else if StartsWith(t, InsertKey) then " " + StripQuill(t[|InsertKey|..])
    else if StartsWith(t, AttributesKey) && |t| > |AttributesKey| + 1
            && AttributesEnd(t, |AttributesKey| + 1).Some? then
      var e := AttributesEnd(t, |AttributesKey| + 1).value;
      " " + StripQuill(t[e..])
    else if t[0] == ',' then " " + StripQuill(t[1..])
    else [t[0]] + StripQuill(t[1..])
  }

  /** replaceAll("<[^>]*>", ""): each '<' with a later '>' is removed up to that '>'. */
  function StripTags(s: string): (r: string)
    ensures '>' in r ==> '>' in s
    decreases |s|
  {
    if s == [] then []
    else if s[0] == '<' && '>' in s[1..] then
      var k := IndexOfChar(s[1..], '>');
      StripTags(s[k + 2..])
    else [s[0]] + StripTags(s[1..])
  }

  /** After tag stripping no '<' is followed, anywhere later, by a '>'. */
  lemma {:induction false} NoTagAfterStrip(s: string)
    ensures forall i, j :: 0 <= i < j < |StripTags(s)| ==> !(StripTags(s)[i] == '<' && StripTags(s)[j] == '>')
    decreases |s|
  {
    if s != [] {
      if s[0] == '<' && '>' in s[1..] {
        var k := IndexOfChar(s[1..], '>');
        NoTagAfterStrip(s[k + 2..]);
      } else {
        NoTagAfterStrip(s[1..]);
        var r := StripTags(s);
        var t := StripTags(s[1..]);
        assert r == [s[0]] + t;
        forall i, j | 0 <= i < j < |r| ensures !(r[i] == '<' && r[j] == '>') {
          if i == 0 && r[0] == '<' {
            assert '>' !in s[1..];
            assert r[j] == t[j - 1];
            assert '>' !in t;
          } else if i > 0 {
            assert r[i] == t[i - 1] && r[j] == t[j - 1];
          }
        }
      }
    }
  }

  /** String.replace(target, replacement) for a non-empty literal target. */
  function ReplaceAll(s: string, target: string, repl: string): (r: string)
    requires target != []
    decreases |s|
  {
    if s == [] then []
    else if StartsWith(s, target) then repl + ReplaceAll(s[|target|..], target, repl)
    else [s[0]] + ReplaceAll(s[1..], target, repl)
  }

  /** A replacement whose target does not occur leaves the text unchanged. */
  lemma {:induction false} ReplaceAbsent(s: string, target: string, repl: string)
    requires target != []
    requires forall i :: 0 <= i < |s| ==> !StartsWith(s[i..], target)
    ensures ReplaceAll(s, target, repl) == s
    decreases |s|
  {
    if s != [] {
      assert s[0..] == s;
      forall i | 0 <= i < |s[1..]| ensures !StartsWith(s[1..][i..], target) {
        assert s[1..][i..] == s[i + 1..];
      }
      ReplaceAbsent(s[1..], target, repl);
    }
  }

  function DecodeEntities(s: string): string
  {
    ReplaceAll(ReplaceAll(ReplaceAll(ReplaceAll(ReplaceAll(s, "&nbsp;", " "), "&lt;", "<"), "&gt;", ">"), "&amp;", "&"), "&quot;", "\"")
  }

  /** extractPlainTextFromRichText: empty stays empty; Quill JSON loses its JSON
      syntax; text with both '<' and '>' loses its tags and five entities; both are
      then trimmed; any other text comes back unchanged. */
  function ExtractPlainText(content: string): (r: string)
    ensures content == [] ==> r == []
    ensures !IsQuillJson(content) && !('<' in content && '>' in content) ==> r == content
    ensures IsQuillJson(content) || ('<' in content && '>' in content) ==>
              r != [] ==> !TrimmedChar(r[0]) && !TrimmedChar(r[|r| - 1])
  {
    if content == [] then []
    else if IsQuillJson(content) then Trim(StripQuill(content))
    else if '<' in content && '>' in content then Trim(DecodeEntities(StripTags(content)))
    else content
  }

  // ----------------------------------------------------------- the operations

  /** The appended variable block: "key: value\n" for each entry with a non-empty
      value, in the map's iteration order. */
  function VariableLines(order: seq<string>, vars: map<string, Option<string>>): (r: string)
    requires forall k :: 0 <= k < |order| ==> order[k] in vars
  {
    if order == [] then []
    else
      var key := order[|order| - 1];
      var v := vars[key];
      VariableLines(order[..|order| - 1], vars)
      + (if v.Some? && v.value != [] then key + ": " + v.value + "\n" else [])
  }

  /** What formatPromptTemplate returns, stated with the reference rendering. */
  function FormatSpec(template: string, vars: map<string, Option<string>>, order: seq<string>): string
    requires forall k :: 0 <= k < |order| ==> order[k] in vars
  {
    if template == [] then []
    else
      var plain := ExtractPlainText(template);
      if !ContainsPlaceholder(plain) then
        if |vars| > 0 then plain + "\n\n" + VariableLines(order, vars) else plain
      else Render(plain, vars)
  }

  /** One round of the replacement loop keeps the rendering invariant. */
  lemma RenderLoopStep(plain: string, vars: map<string, Option<string>>, total: string, result: string, lastEnd: nat,
                       start: nat, m: Match, result': string, lastEnd': nat)
    requires lastEnd <= |plain| && FindFrom(plain, lastEnd) == Some(start) && MatchAt(plain, start) == Some(m)
    requires result + RenderFrom(plain, lastEnd, vars) == total
    requires lastEnd' == start + m.len <= |plain|
    requires result' == result + plain[lastEnd..start] + Replacement(plain, start, m, vars)
    ensures result' + RenderFrom(plain, lastEnd', vars) == total
  {
    RenderFromSplit(plain, lastEnd, start, m, vars);
    Regroup(result, RenderFrom(plain, lastEnd, vars), plain[lastEnd..start], Replacement(plain, start, m, vars),
            RenderFrom(plain, lastEnd', vars), total, result');
  }

  /** The replacement loop of formatPromptTemplate: find the next match from
      lastEnd, copy the text before it, append the value or the match itself. */
  method ReplacePlaceholders(plain: string, vars: map<string, Option<string>>) returns (result: string)
    ensures result == Render(plain, vars)
  {
    result := [];
    var lastEnd: nat := 0;
    var found := FindFrom(plain, 0);
    ghost var total := Render(plain, vars);
    while found.Some?
      invariant lastEnd <= |plain|
      invariant found == FindFrom(plain, lastEnd)
      invariant result + RenderFrom(plain, lastEnd, vars) == total
      decreases |plain| - lastEnd
    {
      var start := found.value;
      var m := MatchAt(plain, start).value;
      ghost var result0, lastEnd0 := result, lastEnd;
      result := result + plain[lastEnd..start] + Replacement(plain, start, m, vars);
      lastEnd := start + m.len;
      RenderLoopStep(plain, vars, total, result0, lastEnd0, start, m, result, lastEnd);
      found := FindFrom(plain, lastEnd);
    }
    RenderFromNone(plain, lastEnd, vars);
    if lastEnd < |plain| {
      result := result + plain[lastEnd..];
    } else {
      assert plain[lastEnd..] == [];
    }
  }

  /** The loop over the map's entries that appends "key: value\n" lines. */
  method AppendVariables(prefix: string, vars: map<string, Option<string>>, order: seq<string>)
    returns (result: string)
    requires forall k :: 0 <= k < |order| ==> order[k] in vars
    ensures result == prefix + VariableLines(order, vars)
  {
    result := prefix;
    var i := 0;
    while i < |order|
      invariant 0 <= i <= |order|
      invariant result == prefix + VariableLines(order[..i], vars)
    {
      var v := vars[order[i]];
      if v.Some? && v.value != [] {
        result := result + order[i] + ": " + v.value + "\n";
      }
      assert order[..i + 1][..i] == order[..i];
      i := i + 1;
    }
    assert order[..i] == order;
  }

  /** formatPromptTemplate. The HashMap's iteration order is the parameter order,
      which lists every key once. */
  method FormatPromptTemplate(template: string, vars: map<string, Option<string>>, order: seq<string>)
    returns (result: string)
    requires forall k :: 0 <= k < |order| ==> order[k] in vars
    requires forall key :: key in vars ==> key in order
    ensures result == FormatSpec(template, vars, order)
  {
    if template == [] {
      return [];
    }
    var plain := ExtractPlainText(template);
    if !ContainsPlaceholder(plain) {
      if |vars| > 0 {
        result := AppendVariables(plain + "\n\n", vars, order);
        return;
      }
      return plain;
    }
    result := ReplacePlaceholders(plain, vars);
  }

  /** extractPlaceholders: every placeholder name found maps to "". */
  /** One round of the extraction loop keeps the names invariant. */
  lemma NamesLoopStep(plain: string, all: seq<string>, seen: seq<string>, lastEnd: nat, start: nat, m: Match,
                      seen': seq<string>, lastEnd': nat)
    requires lastEnd <= |plain| && FindFrom(plain, lastEnd) == Some(start) && MatchAt(plain, start) == Some(m)
    requires seen + NamesFrom(plain, lastEnd) == all
    requires lastEnd' == start + m.len <= |plain|
    requires seen' == seen + [NameOf(plain, m)]
    ensures seen' + NamesFrom(plain, lastEnd') == all
  {
    NamesFromStep(plain, lastEnd, start, m);
    RegroupOne(seen, NamesFrom(plain, lastEnd), NameOf(plain, m), NamesFrom(plain, lastEnd'), all, seen');
  }

  method ExtractPlaceholders(template: string) returns (placeholders: map<string, string>)
    ensures forall n :: n in placeholders ==> placeholders[n] == ""
    ensures forall n :: n in placeholders <==> n in Names(ExtractPlainText(template))
    ensures template == [] ==> placeholders == map[]
  {
    placeholders := map[];
    if template == [] {
      return;
    }
    var plain := ExtractPlainText(template);
    var lastEnd: nat := 0;
    var found := FindFrom(plain, 0);
    ghost var seen: seq<string> := [];
    ghost var all := Names(plain);
    while found.Some?
      invariant lastEnd <= |plain|
      invariant found == FindFrom(plain, lastEnd)
      invariant seen + NamesFrom(plain, lastEnd) == all
      invariant forall n :: n in placeholders <==> n in seen
      invariant forall n :: n in placeholders ==> placeholders[n] == ""
      decreases |plain| - lastEnd
    {
      var start := found.value;
      var m := MatchAt(plain, start).value;
      ghost var seen0, lastEnd0 := seen, lastEnd;
      placeholders := placeholders[NameOf(plain, m) := ""];
      seen := seen + [NameOf(plain, m)];
      lastEnd := start + m.len;
      NamesLoopStep(plain, all, seen0, lastEnd0, start, m, seen, lastEnd);
      found := FindFrom(plain, lastEnd);
    }
    NamesFromNone(plain, lastEnd);
    assert seen + [] == seen;
  }
}
