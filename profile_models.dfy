/** `String.trimmedOrNil`: a string's content without surrounding whitespace, or nothing when it has none. */
module ProfileModels {
  import opened Wrappers
  import opened Strings

  function TrimmedOrNil(s: string): (r: Option<string>)
    ensures r == None <==> forall k :: 0 <= k < |s| ==> IsWhitespace(s[k])
    ensures r != None ==> r.value == TrimWhitespace(s)
    ensures r != None ==> r.value != [] && !IsWhitespace(r.value[0]) && !IsWhitespace(r.value[|r.value| - 1])
  {
    var trimmed := TrimWhitespace(s);
    if trimmed == [] then None else Some(trimmed)
  }

  /** A present result is its own `trimmedOrNil`. */
  lemma TrimmedOrNilIdempotent(s: string)
    requires TrimmedOrNil(s) != None
    ensures TrimmedOrNil(TrimmedOrNil(s).value) == TrimmedOrNil(s)
  {
    TrimIdempotent(s, IsWhitespace);
  }
}
