/** The generation controller (`AIRenderer.ViewModels.AIRenderViewModel`): a small state machine
    over a source image, a result image, a busy flag and a status line, with one guard per command.
    The viewport capture is passed in as its outcome, the bitmap conversions as functions, and the
    generation runs the service model itself; the `await` is one atomic step. */
module ViewModels {
  import opened Wrappers
  import opened Clr
  import opened Imaging
  import opened Models
  import GeminiApiService
  import Json

  /** What a collaborator call came back with: the (possibly null) image it returned,
      or the message of the exception it threw. */
  datatype Call = Returned(image: Option<Image>) | Threw(message: string)

  /** The two conversions of `ScreenCapture`. `BitmapSourceToBitmap` yields the bitmap or throws
      (the failure carries the exception's message); `BitmapToBitmapSource` swallows both of its
      conversion attempts' exceptions and yields null when both fail. */
  type ToBitmap = Image -> Result<Image, string>
  type ToSource = Image -> Option<Image>

  /** How the awaited service call reaches the controller: the service never throws, and every
      failure tag arrives as a null bitmap. */
  function ServiceCall(result: Result<Image, GeminiApiService.Failure>): (call: Call)
    ensures call.Returned?
    ensures call.image.Some? <==> result.Success?
    ensures result.Success? ==> call.image == Some(result.value)
  {
    Returned(result.ToOption())
  }

  /** What the `try` block of `GenerateImageAsync` gets back from converting the source and
      awaiting the service with the current settings. */
  function Awaited(settings: SettingsValues, source: Image, toBitmap: ToBitmap,
                   encode: Image -> Option<string>, send: GeminiApiService.HttpRequest -> GeminiApiService.HttpOutcome,
                   decode: string -> Option<Image>): Call
  {
    match toBitmap(source)
    case Failure(message) => Threw(message)
    case Success(bitmap) =>
      ServiceCall(GeminiApiService.GenerateOutcome(settings.apiUrl, settings.apiKey, settings.prompt, Some(bitmap),
                                                   settings, encode, send, decode))
  }

  const StatusReady: string := "Ready"
  const StatusCapturing: string := "Capturing viewport..."
  const StatusCaptureFailed: string := "Failed to capture viewport"
  const StatusNoSource: string := "Please capture a source image first"
  const StatusNoPrompt: string := "Please enter a prompt"
  const StatusGenerating: string := "Generating..."
  const StatusGenerationFailed: string := "Generation failed - check API response"
  const StatusResultCopied: string := "Result copied to source"

  /** "{width}x{height}" */
  function SizeText(image: Image): string {
    IntToString(image.width as int) + "x" + IntToString(image.height as int)
  }

  function ErrorStatus(message: string): string {
    "Error: " + message
  }

  /** The status line a completed generation leaves behind. */
  function GeneratedStatus(call: Call): string {
    match call
    case Returned(Some(image)) => "Generated: " + SizeText(image)
    case Returned(None) => StatusGenerationFailed
    case Threw(message) => ErrorStatus(message)
  }

  /** The controller's own fields at one moment. */
  datatype ViewState = ViewState(
    settings: RenderSettings, sourceImage: Option<Image>, resultImage: Option<Image>,
    statusMessage: string, isGenerating: bool, hasSourceImage: bool, hasResultImage: bool)

  class AIRenderViewModel {
    var settings: RenderSettings
    var sourceImage: Option<Image>
    var resultImage: Option<Image>
    var statusMessage: string
    var isGenerating: bool
    var hasSourceImage: bool
    var hasResultImage: bool
    /** The (API key, model) pairs handed to the settings store, oldest first. */
    ghost var savedSettings: seq<(string, string)>

    /** The `Has…` flags mirror whether the images are present. */
    ghost predicate Valid()
      reads this
    {
      hasSourceImage == sourceImage.Some? && hasResultImage == resultImage.Some?
    }

    function State(): ViewState
      reads this
    {
      ViewState(settings, sourceImage, resultImage, statusMessage, isGenerating, hasSourceImage, hasResultImage)
    }

    /** Fresh settings, with the API key and model overridden only by non-empty arguments. */
    constructor (apiKey: string, selectedModel: string)
      ensures Valid() && fresh(settings)
      ensures sourceImage == None && resultImage == None && !isGenerating && statusMessage == StatusReady
      ensures savedSettings == []
      ensures settings.apiKey == (if apiKey != "" then apiKey else DefaultApiKey)
      ensures settings.selectedModel == (if selectedModel != "" then selectedModel else DefaultSelectedModel)
      ensures settings.apiUrl == DefaultApiUrl && settings.prompt == DefaultPrompt
      ensures settings.seed == DefaultSeed && settings.steps == DefaultSteps
      ensures settings.width == DefaultWidth && settings.height == DefaultHeight
    {
      settings := new RenderSettings();
      sourceImage, resultImage := None, None;
      statusMessage := StatusReady;
      isGenerating, hasSourceImage, hasResultImage := false, false, false;
      savedSettings := [];
      new;
      if !IsNullOrEmpty(apiKey) {
        settings.SetApiKey(apiKey);
      }
      if !IsNullOrEmpty(selectedModel) {
        settings.SetSelectedModel(selectedModel);
      }
    }

    /** The parameterless constructor: no stored key, the default model. */
    constructor WithDefaults()
      ensures Valid() && fresh(settings)
      ensures sourceImage == None && resultImage == None && !isGenerating && statusMessage == StatusReady
      ensures savedSettings == []
      ensures settings.apiKey == DefaultApiKey && settings.selectedModel == DefaultSelectedModel
      ensures settings.apiUrl == DefaultApiUrl && settings.prompt == DefaultPrompt
    {
      settings := new RenderSettings();
      sourceImage, resultImage := None, None;
      statusMessage := StatusReady;
      isGenerating, hasSourceImage, hasResultImage := false, false, false;
      savedSettings := [];
      new;
      settings.SetSelectedModel("gemini-3-pro-image-preview");
    }

    // ------------------------------------------------------------ command guards

    predicate CanCapture()
      reads this
    {
      !isGenerating
    }

    predicate CanClear()
      reads this
    {
      !isGenerating
    }

    predicate CanSaveResult()
      reads this
    {
      hasResultImage
    }

    predicate CanUseResultAsSource()
      reads this
    {
      hasResultImage
    }

    predicate CanGenerate()
      reads this, settings
    {
      !isGenerating && hasSourceImage &&
      !IsNullOrWhiteSpace(settings.apiUrl) && !IsNullOrWhiteSpace(settings.apiKey)
    }

    // ------------------------------------------------------------ property setters

    method SetSettings(value: RenderSettings)
      modifies this
      ensures State() == old(State()).(settings := value) && savedSettings == old(savedSettings)
    {
      settings := value;
    }

    method SetSourceImage(value: Option<Image>)
      modifies this
      ensures State() == old(State()).(sourceImage := value, hasSourceImage := value.Some?)
      ensures savedSettings == old(savedSettings)
    {
      sourceImage := value;
      hasSourceImage := value.Some?;
    }

    method SetResultImage(value: Option<Image>)
      modifies this
      ensures State() == old(State()).(resultImage := value, hasResultImage := value.Some?)
      ensures savedSettings == old(savedSettings)
    {
      resultImage := value;
      hasResultImage := value.Some?;
    }

    method SetStatusMessage(value: string)
      modifies this
      ensures State() == old(State()).(statusMessage := value) && savedSettings == old(savedSettings)
    {
      statusMessage := value;
    }

    method SetIsGenerating(value: bool)
      modifies this
      ensures State() == old(State()).(isGenerating := value) && savedSettings == old(savedSettings)
    {
      isGenerating := value;
    }

    /** Hands the API key and model to the settings store (file I/O, not modelled beyond the log). */
    method SaveSettings()
      modifies this
      ensures State() == old(State())
      ensures savedSettings == old(savedSettings) + [(settings.apiKey, settings.selectedModel)]
    {
      savedSettings := savedSettings + [(settings.apiKey, settings.selectedModel)];
    }

    // ------------------------------------------------------------ commands

    /** A captured bitmap, converted for display, becomes the source, clears the result and
        records its size; a null capture or a throwing one leaves both images as they were. */
    method CaptureScreen(capture: Call, toSource: ToSource)
      requires Valid()
      modifies this, settings
      ensures Valid() && settings == old(settings) && savedSettings == old(savedSettings)
      ensures isGenerating == old(isGenerating)
      ensures capture.Returned? && capture.image.Some? ==>
                sourceImage == toSource(capture.image.value) && resultImage == None &&
                settings.sourceWidth == capture.image.value.width &&
                settings.sourceHeight == capture.image.value.height &&
                statusMessage == "Captured: " + SizeText(capture.image.value)
      ensures !(capture.Returned? && capture.image.Some?) ==>
                sourceImage == old(sourceImage) && resultImage == old(resultImage) && unchanged(settings) &&
                statusMessage == (if capture.Threw? then ErrorStatus(capture.message) else StatusCaptureFailed)
    {
      SetStatusMessage(StatusCapturing);
      match capture
      case Threw(message) =>
        SetStatusMessage(ErrorStatus(message));
      case Returned(bitmap) =>
        if bitmap.Some? {
          SetSourceImage(toSource(bitmap.value));
          SetResultImage(None);
          settings.SetSourceDimensions(bitmap.value.width, bitmap.value.height);
          SetStatusMessage("Captured: " + SizeText(bitmap.value));
        } else {
          SetStatusMessage(StatusCaptureFailed);
        }
    }

    /** Saves the settings first, then returns early (busy flag untouched) without a source or
        with a blank prompt; otherwise sets the busy flag, converts the source, awaits the service
        and clears the flag on every path. Only an image the service returned replaces the result,
        with what its conversion for display yields. */
    method GenerateImage(toBitmap: ToBitmap, encode: Image -> Option<string>,
                         send: GeminiApiService.HttpRequest -> GeminiApiService.HttpOutcome,
                         decode: string -> Option<Image>, toSource: ToSource)
      requires Valid()
      modifies this
      ensures Valid() && settings == old(settings)
      ensures savedSettings == old(savedSettings) + [(settings.apiKey, settings.selectedModel)]
      ensures sourceImage == old(sourceImage)
      ensures isGenerating == (old(isGenerating) && (old(sourceImage).None? || IsNullOrWhiteSpace(settings.prompt)))
      ensures old(sourceImage).None? ==> State() == old(State()).(statusMessage := StatusNoSource)
      ensures old(sourceImage).Some? && IsNullOrWhiteSpace(settings.prompt) ==>
                State() == old(State()).(statusMessage := StatusNoPrompt)
      ensures old(sourceImage).Some? && !IsNullOrWhiteSpace(settings.prompt) ==>
                var call := Awaited(settings.Values(), old(sourceImage).value, toBitmap, encode, send, decode);
                resultImage == (if call.Returned? && call.image.Some? then toSource(call.image.value) else old(resultImage)) &&
                statusMessage == GeneratedStatus(call)
    {
      SaveSettings();

      if sourceImage.None? {
        SetStatusMessage(StatusNoSource);
        return;
      }
      if IsNullOrWhiteSpace(settings.prompt) {
        SetStatusMessage(StatusNoPrompt);
        return;
      }

      SetIsGenerating(true);
      SetStatusMessage(StatusGenerating);
      var call := AwaitGeneration(settings, sourceImage.value, toBitmap, encode, send, decode);
      match call {
        case Returned(resultBitmap) =>
          if resultBitmap.Some? {
            SetResultImage(toSource(resultBitmap.value));
            SetStatusMessage("Generated: " + SizeText(resultBitmap.value));
          } else {
            SetStatusMessage(StatusGenerationFailed);
          }
        case Threw(message) =>
          SetStatusMessage(ErrorStatus(message));
      }
      SetIsGenerating(false);
    }

    /** Drops both images, empties the prompt and resets the status; other settings stay. */
    method ClearAll()
      requires Valid()
      modifies this, settings
      ensures Valid() && settings == old(settings) && savedSettings == old(savedSettings)
      ensures sourceImage == None && resultImage == None && statusMessage == StatusReady
      ensures isGenerating == old(isGenerating)
      ensures settings.Values() == old(settings.Values()).(prompt := "")
    {
      SetSourceImage(None);
      SetResultImage(None);
      settings.SetPrompt("");
      SetStatusMessage(StatusReady);
    }

    /** Without a result nothing happens; otherwise the result becomes the source, the result
        slot empties and the source size follows the new source. */
    method UseResultAsSource()
      requires Valid()
      modifies this, settings
      ensures Valid() && settings == old(settings) && savedSettings == old(savedSettings)
      ensures old(resultImage).None? ==> State() == old(State()) && unchanged(settings)
      ensures old(resultImage).Some? ==>
                sourceImage == old(resultImage) && resultImage == None &&
                settings.sourceWidth == old(resultImage).value.width &&
                settings.sourceHeight == old(resultImage).value.height &&
                statusMessage == StatusResultCopied && isGenerating == old(isGenerating)
    {
      if resultImage.None? {
        return;
      }
      SetSourceImage(resultImage);
      SetResultImage(None);
      if sourceImage.Some? {
        settings.SetSourceDimensions(sourceImage.value.width, sourceImage.value.height);
      }
      SetStatusMessage(StatusResultCopied);
    }
  }

  /** With the flags in step, capture and clear are enabled exactly when idle, and save and
      use-as-source exactly when a result is shown. */
  lemma CommandGuardsFollowState(vm: AIRenderViewModel)
    requires vm.Valid()
    ensures vm.CanCapture() <==> !vm.isGenerating
    ensures vm.CanClear() <==> !vm.isGenerating
    ensures vm.CanSaveResult() <==> vm.resultImage.Some?
    ensures vm.CanUseResultAsSource() <==> vm.resultImage.Some?
  {
  }

  /** Generate is enabled exactly when idle, with a source image and a non-blank URL and key. */
  lemma GenerateGuardFollowsState(vm: AIRenderViewModel)
    requires vm.Valid()
    ensures vm.CanGenerate() <==>
              !vm.isGenerating && vm.sourceImage.Some? &&
              !IsNullOrWhiteSpace(vm.settings.apiUrl) && !IsNullOrWhiteSpace(vm.settings.apiKey)
  {
  }

  /** An enabled Generate passes the service's three fail-fast checks: whatever bitmap the source
      converts to, the service never answers with a missing URL, key or source image. */
  lemma EnabledGenerateReachesService(vm: AIRenderViewModel, bitmap: Image, encode: Image -> Option<string>,
                                      send: GeminiApiService.HttpRequest -> GeminiApiService.HttpOutcome,
                                      decode: string -> Option<Image>)
    requires vm.Valid() && vm.CanGenerate()
    ensures var r := GeminiApiService.GenerateOutcome(vm.settings.apiUrl, vm.settings.apiKey, vm.settings.prompt,
                                                      Some(bitmap), vm.settings.Values(), encode, send, decode);
            r != Failure(GeminiApiService.MissingBaseUrl) && r != Failure(GeminiApiService.MissingApiKey) &&
            r != Failure(GeminiApiService.MissingSourceImage)
  {
  }

  /** The awaited part of `GenerateImageAsync`: converts the source for the service, then runs it
      with the current settings. The service never throws; only the conversion can. */
  method AwaitGeneration(settings: RenderSettings, source: Image, toBitmap: ToBitmap,
                         encode: Image -> Option<string>,
                         send: GeminiApiService.HttpRequest -> GeminiApiService.HttpOutcome,
                         decode: string -> Option<Image>)
    returns (call: Call)
    ensures call == Awaited(settings.Values(), source, toBitmap, encode, send, decode)
  {
    var sourceBitmap := toBitmap(source);
    if sourceBitmap.Failure? {
      return Threw(sourceBitmap.error);
    }
    var resultBitmap, _ := GeminiApiService.GenerateImage(
      settings.apiUrl, settings.apiKey, settings.prompt, Some(sourceBitmap.value), settings,
      encode, send, decode);
    call := ServiceCall(resultBitmap);
  }

  /** A generation started through its enabled command leaves the controller idle again,
      whatever the service did, and never loses the source image; once the source converts,
      the status reports the service's answer and never an exception. */
  method GenerateFromCommand(vm: AIRenderViewModel, toBitmap: ToBitmap, encode: Image -> Option<string>,
                             send: GeminiApiService.HttpRequest -> GeminiApiService.HttpOutcome,
                             decode: string -> Option<Image>, toSource: ToSource)
    requires vm.Valid() && vm.CanGenerate()
    modifies vm
    ensures vm.Valid() && !vm.isGenerating && vm.CanCapture() && vm.CanClear()
    ensures vm.settings == old(vm.settings)
    ensures vm.savedSettings == old(vm.savedSettings) + [(vm.settings.apiKey, vm.settings.selectedModel)]
    ensures vm.sourceImage == old(vm.sourceImage) && vm.sourceImage.Some?
    ensures IsNullOrWhiteSpace(vm.settings.prompt) ==>
              vm.resultImage == old(vm.resultImage) && vm.statusMessage == StatusNoPrompt
    ensures !IsNullOrWhiteSpace(vm.settings.prompt) ==>
              vm.statusMessage == GeneratedStatus(Awaited(vm.settings.Values(), vm.sourceImage.value, toBitmap, encode, send, decode))
    ensures var call := Awaited(vm.settings.Values(), vm.sourceImage.value, toBitmap, encode, send, decode);
            !IsNullOrWhiteSpace(vm.settings.prompt) ==>
              (call.Returned? && call.image.Some? ==> vm.resultImage == toSource(call.image.value)) &&
              (!(call.Returned? && call.image.Some?) ==> vm.resultImage == old(vm.resultImage)) &&
              (toBitmap(vm.sourceImage.value).Success? ==>
                 vm.statusMessage == StatusGenerationFailed || "Generated: " <= vm.statusMessage)
  {
    vm.GenerateImage(toBitmap, encode, send, decode, toSource);
  }

  /** An enabled Generate whose request is answered with a non-success status (429, say) keeps
      the previous result and reports the failure. */
  method GenerateRejected(vm: AIRenderViewModel, toBitmap: ToBitmap, encode: Image -> Option<string>,
                          status: int, body: Option<Json.JValue>,
                          decode: string -> Option<Image>, toSource: ToSource)
    requires vm.Valid() && vm.CanGenerate() && !IsNullOrWhiteSpace(vm.settings.prompt)
    requires !(200 <= status <= 299)
    modifies vm
    ensures vm.resultImage == old(vm.resultImage) && !vm.isGenerating
    ensures vm.sourceImage == old(vm.sourceImage) && vm.sourceImage.Some?
    ensures toBitmap(vm.sourceImage.value).Success? ==> vm.statusMessage == StatusGenerationFailed
  {
    GenerateFromCommand(vm, toBitmap, encode, (request: GeminiApiService.HttpRequest) => GeminiApiService.Response(status, body),
                        decode, toSource);
  }
}
