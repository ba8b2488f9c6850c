/**
 * utils/json_safety.py: `extract_json_array_from_response` cuts the JSON array out of a model reply:
 * from the first `[` to the last `]` of the stripped text, which must decode to a list.
 */
module JsonSafety {
  import opened Wrappers
  import opened Text
  import opened JsonValues

  /** What `json.loads` does with a text: the value, or the message of its `JSONDecodeError`. */
  datatype Decoded = Parsed(value: Json) | DecodeError(message: string)

  /**
   * The slice `cleaned[start : end + 1]` between the first `[` and the last `]`, or None when either
   * is missing or the last `]` does not come after the first `[`.
   */
  function ArraySnippet(cleaned: string): (r: Option<string>)
    ensures r.Some? <==> '[' in cleaned && ']' in cleaned && FindChar(cleaned, '[') < RFindChar(cleaned, ']')
  {
    var start := FindChar(cleaned, '[');
    var end := RFindChar(cleaned, ']');
    if start == -1 || end == -1 || end <= start then None
    else Some(cleaned[start..end + 1])
  }

  /**
   * The reply's list, or the ValueError raised for a reply that is not a string, is blank, holds no
   * bracketed span, does not decode, or decodes to something other than a list.
   */
  function ExtractJsonArray(response: Json, loads: string -> Decoded): (r: Result<seq<Json>>)
    ensures !response.JStr? ==> r == Err(ValueError("LLM response is not a string."))
    ensures response.JStr? && Strip(response.s) == [] ==> r == Err(ValueError("LLM response is empty."))
    ensures response.JStr? && Strip(response.s) != [] && ArraySnippet(Strip(response.s)).None? ==>
      r == Err(ValueError("No JSON array found in the response."))
    ensures r.Ok? <==>
      response.JStr? && ArraySnippet(Strip(response.s)).Some?
      && loads(ArraySnippet(Strip(response.s)).value).Parsed?
      && loads(ArraySnippet(Strip(response.s)).value).value.JList?
    ensures r.Ok? ==> loads(ArraySnippet(Strip(response.s)).value) == Parsed(JList(r.value))
    ensures r.Err? ==> r.error.ValueError?
  {
    if !response.JStr? then Err(ValueError("LLM response is not a string."))
    else
      var cleaned := Strip(response.s);
      if cleaned == [] then Err(ValueError("LLM response is empty."))
      else
        match ArraySnippet(cleaned)
        case None => Err(ValueError("No JSON array found in the response."))
        case Some(snippet) =>
          match loads(snippet)
          case DecodeError(m) => Err(ValueError("Could not decode extracted JSON array: " + m))
          case Parsed(v) =>
            if v.JList? then Ok(v.items) else Err(ValueError("Parsed content is not a JSON list."))
  }

  /** A span that opens with `[` and closes with `]`, two distinct characters. */
  predicate Bracketed(m: string) {
    |m| >= 2 && m[0] == '[' && m[|m| - 1] == ']'
  }

  /**
   * The snippet runs from the first `[` to the last `]`, both included: it starts with `[`, ends
   * with `]`, and nothing before it holds a `[` and nothing after it holds a `]`.
   */
  lemma SnippetBounds(cleaned: string)
    requires ArraySnippet(cleaned).Some?
    ensures var m := ArraySnippet(cleaned).value;
      exists a, b :: cleaned == a + m + b && '[' !in a && ']' !in b
    ensures Bracketed(ArraySnippet(cleaned).value)
  {
    var start := FindChar(cleaned, '[');
    var end := RFindChar(cleaned, ']');
    assert ArraySnippet(cleaned) == Some(cleaned[start..end + 1]);
    SliceParts(cleaned, start, end);
  }

  /**
   * The span from the only `[` up to `i` to the only `]` from `j` on starts and ends with them,
   * and what comes before and after it holds no `[` and no `]` respectively.
   */
  lemma SliceParts(s: string, i: int, j: int)
    requires 0 <= i < j < |s| && s[i] == '[' && s[j] == ']'
    requires '[' !in s[..i] && ']' !in s[j + 1..]
    ensures var m := s[i..j + 1]; exists a, b :: s == a + m + b && '[' !in a && ']' !in b
    ensures Bracketed(s[i..j + 1])
  {
    var m := s[i..j + 1];
    assert m[|m| - 1] == s[j];
    assert s == s[..i] + m + s[j + 1..];
  }

  /**
   * Text around the bracketed span does not matter: any prefix without `[` and any suffix without
   * `]` leave the same snippet.
   */
  lemma SnippetIgnoresSurroundings(a: string, m: string, b: string)
    requires '[' !in a && ']' !in b
    requires Bracketed(m)
    ensures ArraySnippet(a + m + b) == Some(m)
  {
    var s := a + m + b;
    var start := FindChar(s, '[');
    var end := RFindChar(s, ']');
    assert s[..|a|] == a && s[|a|] == '[';
    assert s[|a| + |m|..] == b && s[|a| + |m| - 1] == ']';
    assert start == |a|;
    assert end == |a| + |m| - 1;
    assert s[start..end + 1] == m;
  }

  /**
   * Two replies whose stripped texts share the bracketed span give the same result: only the span
   * reaches the decoder.
   */
  lemma ResultDependsOnSnippet(r1: string, r2: string, loads: string -> Decoded)
    requires Strip(r1) != [] && Strip(r2) != []
    requires ArraySnippet(Strip(r1)) == ArraySnippet(Strip(r2))
    ensures ExtractJsonArray(JStr(r1), loads) == ExtractJsonArray(JStr(r2), loads)
  {
  }
}
