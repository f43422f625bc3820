/** `DefaultAIService`: the local, deterministic stand-in for AI rewriting. */
module AIRewrite {
  import opened Wrappers
  import opened Strings

  datatype RewriteStyle = Clearer | MoreFormal | Shorter {
    /** The raw value, which is also the style's `id`. */
    function RawValue(): (r: string)
      ensures r != []
    {
      match this
      case Clearer => "Clearer"
      case MoreFormal => "More formal"
      case Shorter => "Shorter"
    }

    /** The hint shown under the style picker. */
    function Description(): (r: string)
      ensures r != [] && r[|r| - 1] == '.'
    {
      match this
      case Clearer => "Make the text easier to understand without changing the meaning."
      case MoreFormal => "Rewrite in a more professional and formal tone."
      case Shorter => "Keep the key idea but make it more concise."
    }

    /** The line each transform starts with. */
    function Header(): string {
      match this
      case Clearer => "Clearer version (placeholder, local transform):"
      case MoreFormal => "More formal version (placeholder, local transform):"
      case Shorter => "Shorter version (placeholder, local transform):"
    }
  }

  datatype AIServiceError = FeatureUnavailable | EmptyInput {
    /** `errorDescription`: every case has its own sentence. */
    function ErrorDescription(): (r: Option<string>)
      ensures r.Some? && r.value != [] && r.value[|r.value| - 1] == '.'
    {
      match this
      case FeatureUnavailable => Some("AI rewriting is not available in this build.")
      case EmptyInput => Some("Type something first so AI has content to work with.")
    }
  }

  /** A style is identified by its raw value, and each has its own description. */
  lemma StylesDistinguished(a: RewriteStyle, b: RewriteStyle)
    ensures a.RawValue() == b.RawValue() ==> a == b
    ensures a.Description() == b.Description() ==> a == b
  {
  }

  /** The two errors read differently. */
  lemma ErrorDescriptionsDistinct()
    ensures FeatureUnavailable.ErrorDescription() != EmptyInput.ErrorDescription()
  {
  }

  /** The longest text `shorter` keeps whole. */
  const MaxLength: nat := 160

  /** The header, a blank line, then the text. */
  function Framed(style: RewriteStyle, text: string): string {
    style.Header() + "\n\n" + text
  }

  /**
   * `rewrite`: trims whitespace and newlines, refuses an empty result, then
   * frames the text; `shorter` cuts it after 160 characters and marks the cut
   * with an ellipsis.
   */
  function Rewrite(text: string, style: RewriteStyle): (r: Result<string, AIServiceError>)
    ensures r.Failure? <==> forall k :: 0 <= k < |text| ==> IsWhitespace(text[k])
    ensures r.Failure? ==> r.error == EmptyInput
    ensures r.Success? && (style != Shorter || |TrimWhitespace(text)| <= MaxLength) ==>
      r.value == Framed(style, TrimWhitespace(text))
    ensures r.Success? && style == Shorter && |TrimWhitespace(text)| > MaxLength ==>
      r.value == Framed(style, TrimWhitespace(text)[..MaxLength] + "…")
  {
    Transform(TrimWhitespace(text), style)
  }

  /** The guard and the transforms, on text already trimmed. */
  function Transform(trimmed: string, style: RewriteStyle): Result<string, AIServiceError> {
    if trimmed == [] then Failure(EmptyInput)
    else if style == Shorter && |trimmed| > MaxLength then Success(Framed(style, trimmed[..MaxLength] + "…"))
    else Success(Framed(style, trimmed))
  }

  /** Rewriting the trimmed text gives what rewriting the text gives: only the trimmed text matters. */
  lemma RewriteSeesTrimmedText(text: string, style: RewriteStyle)
    ensures Rewrite(TrimWhitespace(text), style) == Rewrite(text, style)
  {
    TrimIdempotent(text, IsWhitespace);
  }

  /** After the header and blank line, the output is the trimmed text, or a 160-character prefix of it and an ellipsis. */
  lemma RewriteKeepsText(text: string, style: RewriteStyle)
    requires Rewrite(text, style).Success?
    ensures var out := Rewrite(text, style).value;
      var start := |style.Header()| + 2;
      var trimmed := TrimWhitespace(text);
      start <= |out| && out[..start] == style.Header() + "\n\n"
      && (out[start..] == trimmed || (style == Shorter && out[start..] == trimmed[..MaxLength] + "…"))
      && |out| <= start + |trimmed|
      && (style == Shorter ==> |out| <= start + MaxLength + 1)
  {
    var h := style.Header() + "\n\n";
    var trimmed := TrimWhitespace(text);
    var tail := if style == Shorter && |trimmed| > MaxLength then trimmed[..MaxLength] + "…" else trimmed;
    assert Rewrite(text, style).value == h + tail;
    assert (h + tail)[..|h|] == h && (h + tail)[|h|..] == tail;
  }
}
