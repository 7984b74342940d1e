/** The string and sequence logic around the generative-image API:
    prompt enhancement, extraction of the image and the text from a
    response, and the parts of an edit request. The API itself is a
    parameter. */
module Gemini {
  import opened Wrappers
  import opened JsString

  /** Appended when the quality is 'high'. This constant and the next are
      written as a short literal followed by the rest, so that proofs can
      read their leading characters off the short one. */
  const QUALITY_SUFFIX: string :=
    " . Highly detailed,"
    + " photorealistic, 8k resolution, cinematic lighting, sharp focus, masterpiece."

  /** Opening text of the clause appended for a negative prompt. */
  const NEGATIVE_PREFIX: string := " . Ensure" + " the image does NOT contain: "

  /** Error text of a failed generation whose error had no message. */
  const GENERATION_FAILED: string := "Falha ao gerar a imagem."

  /** The clause that excludes the (trimmed) negative prompt `t`. */
  function NegativeClause(t: string): string {
    NEGATIVE_PREFIX + t + "."
  }

  /** The trimmed negative prompt when it is given and not blank. */
  function NegativeText(negativePrompt: Option<string>): Option<string> {
    if negativePrompt.Some? && Trim(negativePrompt.value) != ""
    then Some(Trim(negativePrompt.value)) else None
  }

  /** The part the quality adds: the suffix for 'high', nothing otherwise. */
  function QualityPart(quality: string): string {
    if quality == "high" then QUALITY_SUFFIX else ""
  }

  /** The part the negative prompt adds: its clause when it is not blank. */
  function NegativePart(negativePrompt: Option<string>): string {
    match NegativeText(negativePrompt)
    case Some(t) => NegativeClause(t)
    case None => ""
  }

  /** What the enhanced prompt is: the original, the quality suffix for
      'high', then the negative clause for a non-blank negative prompt. */
  function EnhancedPrompt(originalPrompt: string, quality: string, negativePrompt: Option<string>): string {
    originalPrompt + QualityPart(quality) + NegativePart(negativePrompt)
  }

  /** `enhancePrompt`: extends the prompt in place, one clause at a time. */
  method EnhancePrompt(originalPrompt: string, quality: string, negativePrompt: Option<string>)
    returns (finalPrompt: string)
    ensures finalPrompt == EnhancedPrompt(originalPrompt, quality, negativePrompt)
    ensures StartsWith(finalPrompt, originalPrompt)
  {
    finalPrompt := originalPrompt;
    if quality == "high" {
      finalPrompt := finalPrompt + QUALITY_SUFFIX;
    }
    assert finalPrompt == originalPrompt + QualityPart(quality);
    if negativePrompt.Some? && Trim(negativePrompt.value) != "" {
      var trimmed := Trim(negativePrompt.value);
      assert NegativePart(negativePrompt) == NegativeClause(trimmed);
      finalPrompt := finalPrompt + NegativeClause(trimmed);
    } else {
      assert NegativePart(negativePrompt) == "";
    }
    ConcatStartsWith(originalPrompt, QualityPart(quality) + NegativePart(negativePrompt));
  }

  /** `s` begins with `prefix`. */
  predicate StartsWith(s: string, prefix: string) {
    |prefix| <= |s| && s[..|prefix|] == prefix
  }

  /** A string that differs from `prefix` at some index below both lengths
      does not begin with it. */
  lemma DiffersAt(s: string, prefix: string, i: nat)
    requires i < |s| && i < |prefix| && s[i] != prefix[i]
    ensures !StartsWith(s, prefix)
  {
  }

  /** A concatenation begins with its first operand. */
  lemma ConcatStartsWith(a: string, b: string)
    ensures StartsWith(a + b, a)
  {
  }

  /** A negative clause never starts with the quality suffix: they differ
      at their fourth character. */
  lemma NegativeClauseIsNotQuality(t: string)
    ensures !StartsWith(NegativeClause(t), QUALITY_SUFFIX)
  {
    var c := NegativeClause(t);
    assert c[3] == NEGATIVE_PREFIX[3] == " . Ensure"[3] == 'E';
    assert QUALITY_SUFFIX[3] == " . Highly detailed,"[3] == 'H';
    DiffersAt(c, QUALITY_SUFFIX, 3);
  }

  /** The quality suffix follows the original prompt exactly when the
      quality is 'high'. */
  lemma QualitySuffixIffHigh(originalPrompt: string, quality: string, negativePrompt: Option<string>)
    ensures StartsWith(EnhancedPrompt(originalPrompt, quality, negativePrompt)[|originalPrompt|..], QUALITY_SUFFIX)
      <==> quality == "high"
  {
    var e := EnhancedPrompt(originalPrompt, quality, negativePrompt);
    var q, neg := QualityPart(quality), NegativePart(negativePrompt);
    var rest := q + neg;
    assert e == originalPrompt + rest;
    assert e[|originalPrompt|..] == rest;
    if quality == "high" {
      assert rest[..|q|] == q;
    } else {
      assert rest == neg;
      if NegativeText(negativePrompt).Some? {
        NegativeClauseIsNotQuality(NegativeText(negativePrompt).value);
      }
    }
  }

  /** The negative clause comes after the quality part and is there exactly
      when the trimmed negative prompt is not empty; it embeds the trimmed
      text. */
  lemma NegativeClauseIffNotBlank(originalPrompt: string, quality: string, negativePrompt: Option<string>)
    ensures var e := EnhancedPrompt(originalPrompt, quality, negativePrompt);
      var base := originalPrompt + QualityPart(quality);
      |base| <= |e| && e[..|base|] == base
      && (|e| > |base| <==> negativePrompt.Some? && !IsBlank(negativePrompt.value))
      && (|e| > |base| ==> e[|base|..] == NEGATIVE_PREFIX + Trim(negativePrompt.value) + ".")
  {
    if negativePrompt.Some? {
      TrimEmptyIffBlank(negativePrompt.value);
    }
  }

  /** With a quality other than 'high' and a missing or blank negative
      prompt, the prompt is left as it is. */
  lemma PlainPromptUnchanged(originalPrompt: string, quality: string, negativePrompt: Option<string>)
    requires quality != "high"
    requires negativePrompt.None? || IsBlank(negativePrompt.value)
    ensures EnhancedPrompt(originalPrompt, quality, negativePrompt) == originalPrompt
  {
    if negativePrompt.Some? {
      TrimEmptyIffBlank(negativePrompt.value);
    }
  }

  /** Inline binary data of a part; either field may be missing. */
  datatype InlineData = InlineData(mimeType: Option<string>, data: Option<string>)

  /** One part of a request or a response: inline data, text, or both. */
  datatype Part = Part(inlineData: Option<InlineData>, text: Option<string>)

  datatype Content = Content(parts: Option<seq<Part>>)

  datatype Candidate = Candidate(content: Option<Content>)

  datatype Response = Response(candidates: Option<seq<Candidate>>)

  /** The image (as a data URL) and the text extracted from a response. */
  datatype GeneratedImageResult = GeneratedImageResult(imageUrl: Option<string>, textOutput: Option<string>)

  /** `response.candidates?.[0]?.content?.parts`, when it is there. */
  function ResponseParts(response: Response): Option<seq<Part>> {
    if response.candidates.Some? && |response.candidates.value| > 0
       && response.candidates.value[0].content.Some?
    then response.candidates.value[0].content.value.parts
    else None
  }

  /** A missing field interpolates as "undefined" in a template literal. */
  function Interpolate(s: Option<string>): string {
    if s.Some? then s.value else "undefined"
  }

  /** `data:<mime>;base64,<data>`. */
  function DataUrl(d: InlineData): string {
    "data:" + Interpolate(d.mimeType) + ";base64," + Interpolate(d.data)
  }

  /** A part that sets the text output: no inline data and a non-empty text. */
  predicate IsTextPart(p: Part) {
    p.inlineData.None? && p.text.Some? && p.text.value != ""
  }

  /** The data URL of the last part with inline data. */
  function LastImageUrl(parts: seq<Part>): Option<string> {
    if parts == [] then None
    else if parts[|parts| - 1].inlineData.Some? then Some(DataUrl(parts[|parts| - 1].inlineData.value))
    else LastImageUrl(parts[..|parts| - 1])
  }

  /** The text of the last text part. */
  function LastText(parts: seq<Part>): Option<string> {
    if parts == [] then None
    else if IsTextPart(parts[|parts| - 1]) then parts[|parts| - 1].text
    else LastText(parts[..|parts| - 1])
  }

  /** What `parseResponse` extracts from a response. */
  function ParsedResult(response: Response): GeneratedImageResult {
    match ResponseParts(response)
    case None => GeneratedImageResult(None, None)
    case Some(parts) => GeneratedImageResult(LastImageUrl(parts), LastText(parts))
  }

  /** `parseResponse`: scans the parts once, each inline-data part
      overwriting the image URL and each other non-empty text overwriting
      the text. */
  method ParseResponse(response: Response) returns (r: GeneratedImageResult)
    ensures r == ParsedResult(response)
    ensures ResponseParts(response).None? ==> r.imageUrl.None? && r.textOutput.None?
  {
    var imageUrl: Option<string> := None;
    var textOutput: Option<string> := None;
    var found := ResponseParts(response);
    if found.Some? {
      var parts := found.value;
      for i := 0 to |parts|
        invariant imageUrl == LastImageUrl(parts[..i])
        invariant textOutput == LastText(parts[..i])
      {
        var part := parts[i];
        assert parts[..i + 1][..i] == parts[..i];
        if part.inlineData.Some? {
          imageUrl := Some(DataUrl(part.inlineData.value));
        } else if part.text.Some? && part.text.value != "" {
          textOutput := part.text;
        }
      }
      assert parts[..|parts|] == parts;
    }
    r := GeneratedImageResult(imageUrl, textOutput);
  }

  /** The image URL is built from the last part with inline data, and there
      is none exactly when no part has inline data. */
  lemma {:induction false} LastImageUrlIsLast(parts: seq<Part>, k: nat)
    requires k < |parts| && parts[k].inlineData.Some?
    requires forall j :: k < j < |parts| ==> parts[j].inlineData.None?
    ensures LastImageUrl(parts) == Some(DataUrl(parts[k].inlineData.value))
    decreases |parts|
  {
    if k < |parts| - 1 {
      LastImageUrlIsLast(parts[..|parts| - 1], k);
    }
  }

  lemma {:induction false} LastImageUrlNone(parts: seq<Part>)
    ensures LastImageUrl(parts).None? <==> forall j :: 0 <= j < |parts| ==> parts[j].inlineData.None?
    decreases |parts|
  {
    if parts != [] {
      var init := parts[..|parts| - 1];
      LastImageUrlNone(init);
      assert forall j :: 0 <= j < |init| ==> init[j] == parts[j];
    }
  }

  /** The text output is the text of the last text part, and there is none
      exactly when no part is a text part. */
  lemma {:induction false} LastTextIsLast(parts: seq<Part>, k: nat)
    requires k < |parts| && IsTextPart(parts[k])
    requires forall j :: k < j < |parts| ==> !IsTextPart(parts[j])
    ensures LastText(parts) == parts[k].text
    decreases |parts|
  {
    if k < |parts| - 1 {
      LastTextIsLast(parts[..|parts| - 1], k);
    }
  }

  lemma {:induction false} LastTextNone(parts: seq<Part>)
    ensures LastText(parts).None? <==> forall j :: 0 <= j < |parts| ==> !IsTextPart(parts[j])
    decreases |parts|
  {
    if parts != [] {
      var init := parts[..|parts| - 1];
      LastTextNone(init);
      assert forall j :: 0 <= j < |init| ==> init[j] == parts[j];
    }
  }

  /** A part with inline data never contributes text, even when it has some. */
  lemma ImagePartGivesNoText(parts: seq<Part>, p: Part)
    requires p.inlineData.Some?
    ensures LastText(parts + [p]) == LastText(parts)
    ensures LastImageUrl(parts + [p]) == Some(DataUrl(p.inlineData.value))
  {
    assert (parts + [p])[..|parts|] == parts;
  }

  /** An input image of an edit request. */
  datatype ImageInput = ImageInput(base64Data: string, mimeType: string)

  /** The request part that carries an input image. */
  function ImagePart(img: ImageInput): Part {
    Part(Some(InlineData(Some(img.mimeType), Some(img.base64Data))), None)
  }

  /** The parts of an edit request: one inline-data part per image, in
      input order, then exactly one text part with the prompt. */
  method BuildEditParts(images: seq<ImageInput>, finalPrompt: string) returns (parts: seq<Part>)
    ensures |parts| == |images| + 1
    ensures forall i :: 0 <= i < |images| ==> parts[i] == ImagePart(images[i])
    ensures parts[|images|] == Part(None, Some(finalPrompt))
  {
    parts := [];
    for i := 0 to |images|
      invariant |parts| == i
      invariant forall j :: 0 <= j < i ==> parts[j] == ImagePart(images[j])
    {
      parts := parts + [ImagePart(images[i])];
    }
    parts := parts + [Part(None, Some(finalPrompt))];
  }

  /** The request of `editImageWithPrompt`: the prompt enhanced for quality
      only (no negative prompt), after the images. */
  method EditRequestParts(images: seq<ImageInput>, prompt: string, quality: string) returns (parts: seq<Part>)
    ensures |parts| == |images| + 1
    ensures forall i :: 0 <= i < |images| ==> parts[i] == ImagePart(images[i])
    ensures parts[|images|] == Part(None, Some(EnhancedPrompt(prompt, quality, None)))
  {
    var finalPrompt := EnhancePrompt(prompt, quality, None);
    parts := BuildEditParts(images, finalPrompt);
  }

  /** What the API answers to a prompt and an aspect ratio: a response, or
      an error with its message. */
  type GenerateApi = (string, string) -> Result<Response, string>

  /** The outcome of `generateImageFromText`. */
  function GenerationOutcome(api: GenerateApi, prompt: string, aspectRatio: string, quality: string, negativePrompt: string)
    : Result<GeneratedImageResult, string>
  {
    match api(EnhancedPrompt(prompt, quality, Some(negativePrompt)), aspectRatio)
    case Ok(response) => Ok(ParsedResult(response))
    case Err(message) => Err(if message != "" then message else GENERATION_FAILED)
  }

  /** `generateImageFromText`: enhances the prompt, asks the API, parses
      the answer; a failure is rethrown with its message or a default. */
  method GenerateImageFromText(api: GenerateApi, prompt: string, aspectRatio: string, quality: string, negativePrompt: string)
    returns (r: Result<GeneratedImageResult, string>)
    ensures r == GenerationOutcome(api, prompt, aspectRatio, quality, negativePrompt)
    ensures r.Err? ==> r.error != ""
  {
    var finalPrompt := EnhancePrompt(prompt, quality, Some(negativePrompt));
    var response := api(finalPrompt, aspectRatio);
    if response.Err? {
      return Err(if response.error != "" then response.error else GENERATION_FAILED);
    }
    var parsed := ParseResponse(response.value);
    r := Ok(parsed);
  }
}
