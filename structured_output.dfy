// StructuredOutputStrategy.extractJsonFromResponse: cut a JSON array out of an AI
// answer, from the first '[' to the last ']'; failing that, wrap the span from
// the first '{' to the last '}' in brackets.
module StructuredOutput {
  import opened Wrappers
  import opened JStrings

  const NoJsonPrefix: string := "无法从响应中提取JSON: "

  /** The guard of both attempts: the first opening character comes before the
      last closing one. */
  predicate HasSpan(s: string, open: char, close: char)
  {
    IndexOfChar(s, open) >= 0 && LastIndexOfChar(s, close) + 1 > IndexOfChar(s, open)
  }

  /** The text from the first opening character to the last closing one. */
  function Span(s: string, open: char, close: char): (r: string)
    requires HasSpan(s, open, close)
    ensures 1 <= |r| <= |s| && r[0] == open && r[|r| - 1] == close
  {
    var i, j := IndexOfChar(s, open), LastIndexOfChar(s, close);
    assert s[i..j + 1][0] == s[i] && s[i..j + 1][j - i] == s[j];
    s[i..j + 1]
  }

  /** The guard holds exactly when some opening character comes before some
      closing one. */
  lemma HasSpanIffOrdered(s: string, open: char, close: char)
    requires open != close
    ensures HasSpan(s, open, close) <==> exists i, j :: 0 <= i < j < |s| && s[i] == open && s[j] == close
  {
    if exists i, j :: 0 <= i < j < |s| && s[i] == open && s[j] == close {
      var i, j :| 0 <= i < j < |s| && s[i] == open && s[j] == close;
      assert open in s && close in s;
      var first, last := IndexOfChar(s, open), LastIndexOfChar(s, close);
      assert first <= i;
      assert last >= j;
    }
    if HasSpan(s, open, close) {
      var first, last := IndexOfChar(s, open), LastIndexOfChar(s, close);
      assert first < last && s[first] == open && s[last] == close;
    }
  }

  /** extractJsonFromResponse: the array span; else the object span in brackets;
      else an IllegalArgumentException carrying the response. */
  function ExtractJson(response: string): (r: Result<string>)
    ensures r.Ok? ==> |r.value| >= 1 && r.value[0] == '[' && r.value[|r.value| - 1] == ']'
    ensures r.Err? <==> !HasSpan(response, '[', ']') && !HasSpan(response, '{', '}')
    ensures r.Err? ==> r.error == Thrown(IllegalArgument, NoJsonPrefix + response)
    ensures HasSpan(response, '[', ']') ==> r == Ok(Span(response, '[', ']'))
    ensures !HasSpan(response, '[', ']') && HasSpan(response, '{', '}') ==>
      r == Ok("[" + Span(response, '{', '}') + "]")
  {
    if HasSpan(response, '[', ']') then Ok(Span(response, '[', ']'))
    else if HasSpan(response, '{', '}') then Ok("[" + Span(response, '{', '}') + "]")
    else Err(Thrown(IllegalArgument, NoJsonPrefix + response))
  }

  /** An answer that already is a bracketed array comes back unchanged, and one
      that is a single object comes back as an array holding it. */
  lemma ExtractJsonOfJson(body: string)
    requires '[' !in body && ']' !in body
    ensures ExtractJson("[" + body + "]") == Ok("[" + body + "]")
    ensures '{' !in body && '}' !in body ==> ExtractJson("{" + body + "}") == Ok("[{" + body + "}]")
  {
    var a := "[" + body + "]";
    assert a[0] == '[' && a[|a| - 1] == ']';
    assert IndexOfChar(a, '[') == 0;
    assert LastIndexOfChar(a, ']') == |a| - 1;
    assert a[0..|a|] == a;
    if '{' !in body && '}' !in body {
      var o := "{" + body + "}";
      assert o[0] == '{' && o[|o| - 1] == '}';
      assert '[' !in o by {
        forall k | 0 <= k < |o| ensures o[k] != '[' {
          if 0 < k < |o| - 1 { assert o[k] == body[k - 1]; }
        }
      }
      assert IndexOfChar(o, '{') == 0;
      assert LastIndexOfChar(o, '}') == |o| - 1;
      assert o[0..|o|] == o;
      assert !HasSpan(o, '[', ']');
      assert "[" + o + "]" == "[{" + body + "}]";
    }
  }
}
