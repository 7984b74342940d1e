/** The state rules of the generator view: template insertion and the
    generate flow (blank-prompt guard, conditional watermark, history of
    successful images, loading and error flags). The watermark renderer is
    a parameter, like the image API. */
module Generator {
  import opened Wrappers
  import opened Json
  import opened JsString
  import opened Gemini

  /** The placeholder a prompt template may contain. */
  const PLACEHOLDER: string := "{prompt}"

  /** Error shown when a failure carries no message. */
  const UNEXPECTED_ERROR: string := "Ocorreu um erro inesperado"

  /** Quality, aspect ratio and negative prompt of a generation. */
  datatype AdvancedSettings = AdvancedSettings(quality: string, aspectRatio: string, negativePrompt: string)

  /** The watermark settings the view receives: the enabled flag and the
      layout the renderer reads. */
  datatype WatermarkSettings = WatermarkSettings(isEnabled: bool, layout: Json)

  /** What the renderer answers to an image URL, a watermark and the
      settings: the watermarked image URL, or an error message. */
  type WatermarkRenderer = (string, Json, WatermarkSettings) -> Result<string, string>

  /** A JavaScript-truthy optional string: present and not empty. */
  predicate HasText(s: Option<string>) {
    s.Some? && s.value != ""
  }

  /** The prompt a template produces: the template with its first
      placeholder replaced by the trimmed prompt, or the template itself. */
  function TemplatePrompt(templateContent: string, currentPrompt: string): string {
    if Includes(templateContent, PLACEHOLDER)
    then ReplaceFirst(templateContent, PLACEHOLDER, Trim(currentPrompt))
    else templateContent
  }

  /** For a `$`-free trimmed prompt, a template with a placeholder yields
      the template with the trimmed prompt put in place of its FIRST
      placeholder; a template without one yields the template. */
  lemma TemplateInsertion(templateContent: string, currentPrompt: string)
    requires '$' !in Trim(currentPrompt)
    ensures !Includes(templateContent, PLACEHOLDER) ==> TemplatePrompt(templateContent, currentPrompt) == templateContent
    ensures Includes(templateContent, PLACEHOLDER) ==>
      var k := IndexOf(templateContent, PLACEHOLDER, 0).value;
      MatchesAt(templateContent, PLACEHOLDER, k)
      && (forall j :: 0 <= j < k ==> !MatchesAt(templateContent, PLACEHOLDER, j))
      && TemplatePrompt(templateContent, currentPrompt)
         == templateContent[..k] + Trim(currentPrompt) + templateContent[k + |PLACEHOLDER|..]
  {
    if Includes(templateContent, PLACEHOLDER) {
      ReplaceFirstLiteral(templateContent, PLACEHOLDER, Trim(currentPrompt));
    }
  }

  /** The result of generating and, when the conditions hold, watermarking:
      the watermark is applied only to a result with an image URL, with
      watermarking enabled and an active watermark. */
  function GenerateOutcome(
    api: GenerateApi, prompt: string, advanced: AdvancedSettings,
    watermarkSettings: WatermarkSettings, activeWatermark: Option<Json>, render: WatermarkRenderer)
    : Result<GeneratedImageResult, string>
  {
    match GenerationOutcome(api, prompt, advanced.aspectRatio, advanced.quality, advanced.negativePrompt)
    case Err(message) => Err(message)
    case Ok(data) =>
      if HasText(data.imageUrl) && watermarkSettings.isEnabled && activeWatermark.Some? then
        match render(data.imageUrl.value, activeWatermark.value, watermarkSettings)
        case Err(message) => Err(message)
        case Ok(url) => Ok(data.(imageUrl := Some(url)))
      else Ok(data)
  }

  /** Without an image URL, with watermarking disabled or without an active
      watermark, the generated result is kept as it is; otherwise its image
      URL is the renderer's. */
  lemma WatermarkOnlyWhenEnabled(
    api: GenerateApi, prompt: string, advanced: AdvancedSettings,
    watermarkSettings: WatermarkSettings, activeWatermark: Option<Json>, render: WatermarkRenderer)
    requires GenerationOutcome(api, prompt, advanced.aspectRatio, advanced.quality, advanced.negativePrompt).Ok?
    ensures var data := GenerationOutcome(api, prompt, advanced.aspectRatio, advanced.quality, advanced.negativePrompt).value;
      var out := GenerateOutcome(api, prompt, advanced, watermarkSettings, activeWatermark, render);
      (!(HasText(data.imageUrl) && watermarkSettings.isEnabled && activeWatermark.Some?) ==> out == Ok(data))
      && (HasText(data.imageUrl) && watermarkSettings.isEnabled && activeWatermark.Some? ==>
            match render(data.imageUrl.value, activeWatermark.value, watermarkSettings)
            case Ok(url) => out == Ok(data.(imageUrl := Some(url)))
            case Err(m) => out == Err(m))
  {
  }

  /** The body of the `try` in `handleGenerate`: generate, then watermark
      the image when the conditions hold; the first failure is the
      outcome. */
  method GenerateAndWatermark(
    api: GenerateApi, prompt: string, advanced: AdvancedSettings,
    watermarkSettings: WatermarkSettings, activeWatermark: Option<Json>, render: WatermarkRenderer)
    returns (outcome: Result<GeneratedImageResult, string>)
    ensures outcome == GenerateOutcome(api, prompt, advanced, watermarkSettings, activeWatermark, render)
  {
    var generated := GenerateImageFromText(
      api, prompt, advanced.aspectRatio, advanced.quality, advanced.negativePrompt);
    if generated.Err? {
      return Err(generated.error);
    }
    var data := generated.value;
    if HasText(data.imageUrl) && watermarkSettings.isEnabled && activeWatermark.Some? {
      var watermarked := render(data.imageUrl.value, activeWatermark.value, watermarkSettings);
      if watermarked.Err? {
        return Err(watermarked.error);
      }
      data := data.(imageUrl := Some(watermarked.value));
    }
    outcome := Ok(data);
  }

  /** The component state of the generator view. */
  class GeneratorView {
    var prompt: string
    var advancedSettings: AdvancedSettings
    var isLoading: bool
    var result: Option<GeneratedImageResult>
    var error: Option<string>
    var isTemplatePanelOpen: bool
    /** Successful results of this session, newest first. */
    var history: seq<GeneratedImageResult>

    constructor ()
      ensures prompt == "" && advancedSettings == AdvancedSettings("standard", "1:1", "")
      ensures !isLoading && result.None? && error.None? && !isTemplatePanelOpen
      ensures history == []
    {
      prompt := "";
      advancedSettings := AdvancedSettings("standard", "1:1", "");
      isLoading := false;
      result := None;
      error := None;
      isTemplatePanelOpen := false;
      history := [];
    }

    /** Typing in the prompt box. */
    method SetPrompt(text: string)
      modifies this
      ensures prompt == text
      ensures advancedSettings == old(advancedSettings) && isLoading == old(isLoading)
      ensures result == old(result) && error == old(error)
      ensures isTemplatePanelOpen == old(isTemplatePanelOpen) && history == old(history)
    {
      prompt := text;
    }

    /** The advanced-settings panel's change handler. */
    method SetAdvancedSettings(settings: AdvancedSettings)
      modifies this
      ensures advancedSettings == settings
      ensures prompt == old(prompt) && isLoading == old(isLoading)
      ensures result == old(result) && error == old(error)
      ensures isTemplatePanelOpen == old(isTemplatePanelOpen) && history == old(history)
    {
      advancedSettings := settings;
    }

    /** The templates button. */
    method OpenTemplatePanel()
      modifies this
      ensures isTemplatePanelOpen
      ensures prompt == old(prompt) && advancedSettings == old(advancedSettings)
      ensures isLoading == old(isLoading) && result == old(result) && error == old(error)
      ensures history == old(history)
    {
      isTemplatePanelOpen := true;
    }

    /** The template panel's close handler. */
    method CloseTemplatePanel()
      modifies this
      ensures !isTemplatePanelOpen
      ensures prompt == old(prompt) && advancedSettings == old(advancedSettings)
      ensures isLoading == old(isLoading) && result == old(result) && error == old(error)
      ensures history == old(history)
    {
      isTemplatePanelOpen := false;
    }

    /** `handleApplyTemplate`: fills in the template (see TemplateInsertion)
      and always closes the template panel; nothing else changes. */
    method HandleApplyTemplate(templateContent: string)
      modifies this
      ensures Includes(templateContent, PLACEHOLDER) ==>
        prompt == ReplaceFirst(templateContent, PLACEHOLDER, Trim(old(prompt)))
      ensures !Includes(templateContent, PLACEHOLDER) ==> prompt == templateContent
      ensures prompt == TemplatePrompt(templateContent, old(prompt))
      ensures !isTemplatePanelOpen
      ensures advancedSettings == old(advancedSettings) && isLoading == old(isLoading)
      ensures result == old(result) && error == old(error) && history == old(history)
    {
      if Includes(templateContent, PLACEHOLDER) {
        var currentText := Trim(prompt);
        var newText := ReplaceFirst(templateContent, PLACEHOLDER, currentText);
        prompt := newText;
      } else {
        prompt := templateContent;
      }
      isTemplatePanelOpen := false;
    }

    /** The state updates once the generation has settled: the result and
      the history on success, the error message on failure, and in every
      case the loading flag cleared. */
    method Settle(outcome: Result<GeneratedImageResult, string>)
      modifies this
      ensures prompt == old(prompt) && advancedSettings == old(advancedSettings)
      ensures isTemplatePanelOpen == old(isTemplatePanelOpen) && !isLoading
      ensures outcome.Ok? ==>
        result == Some(outcome.value) && error == old(error)
        && history == (if HasText(outcome.value.imageUrl) then [outcome.value] + old(history) else old(history))
      ensures outcome.Err? ==>
        result == old(result) && error == Some(if outcome.error != "" then outcome.error else UNEXPECTED_ERROR)
        && history == old(history)
    {
      match outcome {
        case Ok(data) =>
          result := Some(data);
          if HasText(data.imageUrl) {
            history := [data] + history;
          }
        case Err(message) =>
          error := Some(if message != "" then message else UNEXPECTED_ERROR);
      }
      isLoading := false;
    }

    /** The part of `handleGenerate` after the blank-prompt guard: set the
      loading flag, clear the error and the result, run the generation with
      the prompt and settings of this render, then settle. */
    method RunGeneration(
      api: GenerateApi, watermarkSettings: WatermarkSettings,
      activeWatermark: Option<Json>, render: WatermarkRenderer)
      modifies this
      ensures prompt == old(prompt) && advancedSettings == old(advancedSettings)
      ensures isTemplatePanelOpen == old(isTemplatePanelOpen) && !isLoading
      ensures var out := GenerateOutcome(api, old(prompt), old(advancedSettings), watermarkSettings, activeWatermark, render);
        (out.Ok? ==>
           result == Some(out.value) && error.None?
           && history == (if HasText(out.value.imageUrl) then [out.value] + old(history) else old(history)))
        && (out.Err? ==>
           result.None? && error == Some(if out.error != "" then out.error else UNEXPECTED_ERROR)
           && history == old(history))
    {
      // the handler reads the values of this render, not later updates
      var currentPrompt, settings := prompt, advancedSettings;
      isLoading := true;
      error := None;
      result := None;
      var outcome := GenerateAndWatermark(api, currentPrompt, settings, watermarkSettings, activeWatermark, render);
      Settle(outcome);
    }

    /** `handleGenerate`. A blank prompt (see TrimEmptyIffBlank) changes
      nothing. Otherwise the loading flag ends false; on success the result
      is shown and, when it has an image URL, put in front of the history;
      on failure the error is shown, the result stays empty and the history
      is unchanged. */
    method HandleGenerate(
      api: GenerateApi, watermarkSettings: WatermarkSettings,
      activeWatermark: Option<Json>, render: WatermarkRenderer)
      modifies this
      ensures Trim(old(prompt)) == "" ==>
        prompt == old(prompt) && advancedSettings == old(advancedSettings)
        && isLoading == old(isLoading) && result == old(result) && error == old(error)
        && isTemplatePanelOpen == old(isTemplatePanelOpen) && history == old(history)
      ensures Trim(old(prompt)) != "" ==>
        prompt == old(prompt) && advancedSettings == old(advancedSettings)
        && isTemplatePanelOpen == old(isTemplatePanelOpen) && !isLoading
      ensures Trim(old(prompt)) != "" ==>
        var out := GenerateOutcome(api, old(prompt), old(advancedSettings), watermarkSettings, activeWatermark, render);
        (out.Ok? ==>
           result == Some(out.value) && error.None?
           && history == (if HasText(out.value.imageUrl) then [out.value] + old(history) else old(history)))
        && (out.Err? ==>
           result.None? && error == Some(if out.error != "" then out.error else UNEXPECTED_ERROR)
           && history == old(history))
    {
      var trimmed := Trim(prompt);
      if trimmed == "" {
        return;
      }
      RunGeneration(api, watermarkSettings, activeWatermark, render);
    }
  }
}
