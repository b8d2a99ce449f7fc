/** The mutable settings record that parameterises a generation request
    (`AIRenderer.Models.RenderSettings`). */
module Models {
  import opened Wrappers
  import opened Clr

  const DefaultApiUrl: string := "https://generativelanguage.googleapis.com"
  const DefaultApiKey: string := ""
  const DefaultPrompt: string := ""
  const DefaultSelectedModel: string := "gemini-3-pro-image-preview"
  const DefaultSeed: Int32 := -1
  const DefaultSteps: Int32 := 20
  const DefaultWidth: Int32 := 512
  const DefaultHeight: Int32 := 512

  /** The supported Gemini model identifiers, in the order the model picker lists them. */
  const AvailableModels: seq<string> := [
    "gemini-3.1-flash-image-preview",
    "gemini-3-pro-image-preview",
    "gemini-2.5-flash-image"
  ]

  /** Human-readable name of each supported model. */
  const ModelDisplayNames: map<string, string> := map[
    "gemini-3.1-flash-image-preview" := "Nano Banana 2",
    "gemini-3-pro-image-preview" := "Nano Banana Pro",
    "gemini-2.5-flash-image" := "Nano Banana"
  ]

  /** Every field of a settings object at one moment, so that a setter can say
      "this field changed and nothing else did" in one equation. */
  datatype SettingsValues = SettingsValues(
    apiUrl: string, apiKey: string, prompt: string, selectedModel: string,
    seed: Int32, steps: Int32, width: Int32, height: Int32,
    systemPrompt: string, aspectRatio: Option<string>, imageSize: Option<string>,
    sourceWidth: Int32, sourceHeight: Int32)

  class RenderSettings {
    var apiUrl: string
    var apiKey: string
    var prompt: string
    var selectedModel: string
    var seed: Int32
    var steps: Int32
    var width: Int32
    var height: Int32
    // Read by the service and the view model but declared outside RenderSettings.cs:
    // `SystemPrompt`, `SelectedAspectRatio?.Ratio`, `SelectedImageSize` and the
    // dimensions recorded by `SetSourceDimensions`. Their defaults are not known.
    var systemPrompt: string
    var aspectRatio: Option<string>
    var imageSize: Option<string>
    var sourceWidth: Int32
    var sourceHeight: Int32

    function Values(): SettingsValues
      reads this
    {
      SettingsValues(apiUrl, apiKey, prompt, selectedModel, seed, steps, width, height,
                     systemPrompt, aspectRatio, imageSize, sourceWidth, sourceHeight)
    }

    /** A fresh settings object holds the field initialisers' values. */
    constructor ()
      ensures apiUrl == DefaultApiUrl && apiKey == DefaultApiKey && prompt == DefaultPrompt
      ensures selectedModel == DefaultSelectedModel
      ensures seed == DefaultSeed && steps == DefaultSteps
      ensures width == DefaultWidth && height == DefaultHeight
    {
      apiUrl := DefaultApiUrl;
      apiKey := DefaultApiKey;
      prompt := DefaultPrompt;
      selectedModel := DefaultSelectedModel;
      seed := DefaultSeed;
      steps := DefaultSteps;
      width := DefaultWidth;
      height := DefaultHeight;
    }

    /** Stores any string, whether or not it is one of `AvailableModels`. */
    method SetSelectedModel(value: string)
      modifies this
      ensures Values() == old(Values()).(selectedModel := value)
    {
      selectedModel := value;
    }

    method SetApiUrl(value: string)
      modifies this
      ensures Values() == old(Values()).(apiUrl := value)
    {
      apiUrl := value;
    }

    method SetApiKey(value: string)
      modifies this
      ensures Values() == old(Values()).(apiKey := value)
    {
      apiKey := value;
    }

    method SetPrompt(value: string)
      modifies this
      ensures Values() == old(Values()).(prompt := value)
    {
      prompt := value;
    }

    method SetSeed(value: Int32)
      modifies this
      ensures Values() == old(Values()).(seed := value)
    {
      seed := value;
    }

    method SetSteps(value: Int32)
      modifies this
      ensures Values() == old(Values()).(steps := value)
    {
      steps := value;
    }

    method SetWidth(value: Int32)
      modifies this
      ensures Values() == old(Values()).(width := value)
    {
      width := value;
    }

    method SetHeight(value: Int32)
      modifies this
      ensures Values() == old(Values()).(height := value)
    {
      height := value;
    }

    /** Records the size of a new source image. Its C# body lies outside RenderSettings.cs,
        so the contract promises only the recorded dimensions. */
    method SetSourceDimensions(w: Int32, h: Int32)
      modifies this
      ensures sourceWidth == w && sourceHeight == h
    {
      sourceWidth, sourceHeight := w, h;
    }
  }

  /** The default model is one of the supported models. */
  lemma DefaultModelIsAvailable()
    ensures DefaultSelectedModel in AvailableModels
    ensures AvailableModels[1] == DefaultSelectedModel
  {
  }

  /** Exactly three distinct identifiers. */
  lemma AvailableModelsAreDistinct()
    ensures |AvailableModels| == 3
    ensures forall i, j | 0 <= i < j < |AvailableModels| :: AvailableModels[i] != AvailableModels[j]
  {
  }

  /** The display-name table is keyed by exactly the supported models, each with its own name. */
  lemma DisplayNamesCoverModels()
    ensures ModelDisplayNames.Keys == set m | m in AvailableModels
    ensures ModelDisplayNames[AvailableModels[0]] == "Nano Banana 2"
    ensures ModelDisplayNames[AvailableModels[1]] == "Nano Banana Pro"
    ensures ModelDisplayNames[AvailableModels[2]] == "Nano Banana"
  {
  }
}
