/**
 * The photo wizard (`PhotoFlowView`): its four steps, the transitions the
 * step views trigger, and the export step's pixel size and one-shot render.
 */
module PhotoFlow {
  import opened Wrappers
  import opened Geometry
  import opened PhotoPresets
  import opened EditAdjust
  import UploadPhoto

  datatype FlowStep = UploadPhotoStep | ChooseFormatStep | EditAndAdjustStep | ExportAndSaveStep

  /** The step's position in the wizard, counting from 0. */
  function StepIndex(s: FlowStep): nat {
    match s
    case UploadPhotoStep => 0
    case ChooseFormatStep => 1
    case EditAndAdjustStep => 2
    case ExportAndSaveStep => 3
  }

  /** Where the back button leads: the step before, or nothing (dismiss) from the first step. */
  function PreviousStep(s: FlowStep): (r: Option<FlowStep>)
    ensures r == None <==> StepIndex(s) == 0
    ensures r != None ==> StepIndex(r.value) + 1 == StepIndex(s)
  {
    match s
    case UploadPhotoStep => None
    case ChooseFormatStep => Some(UploadPhotoStep)
    case EditAndAdjustStep => Some(ChooseFormatStep)
    case ExportAndSaveStep => Some(EditAndAdjustStep)
  }

  /** The upload step's title for each of its modes. */
  function UploadTitle(mode: UploadPhoto.Mode): string {
    match mode
    case ChooseSource => "New Photo"
    case Preview => "Review"
  }

  /** What the wizard shows: a step's view with the data it needs, or the placeholder when data is missing. */
  datatype Screen =
    | UploadScreen
    | ChooseFormatScreen
    | EditScreen(image: Image, preset: PhotoPreset)
    | ExportScreen(image: Image, preset: PhotoPreset, crop: CropState)
    | MissingData(title: string)

  /** The wizard's state. `dismissals` counts the calls to the environment's `dismiss`. */
  class PhotoFlowState {
    const presets: seq<PhotoPreset>
    var step: FlowStep
    var uploadStepTitle: string
    var sourceImage: Option<Image>
    var selectedPreset: Option<PhotoPreset>
    var cropState: Option<CropState>
    var dismissals: nat

    /** Starts at the upload step unless an initial image is given, in which case it starts at `startStep`. */
    constructor (initialImage: Option<Image>, startStep: FlowStep, presets: seq<PhotoPreset>)
      ensures step == (if initialImage == None then UploadPhotoStep else startStep)
      ensures sourceImage == initialImage && selectedPreset == None && cropState == None
      ensures uploadStepTitle == "New Photo" && dismissals == 0 && this.presets == presets
    {
      this.presets := presets;
      sourceImage := initialImage;
      step := if initialImage == None then UploadPhotoStep else startStep;
      uploadStepTitle := "New Photo";
      selectedPreset, cropState := None, None;
      dismissals := 0;
    }

    /** The navigation title. */
    function StepTitle(): (r: string)
      reads this
      ensures step == UploadPhotoStep ==> r == uploadStepTitle
      ensures step == ChooseFormatStep ==> r == "Format"
      ensures step == EditAndAdjustStep ==> r == "Edit"
      ensures step == ExportAndSaveStep ==> r == "Export"
    {
      match step
      case UploadPhotoStep => uploadStepTitle
      case ChooseFormatStep => "Format"
      case EditAndAdjustStep => "Edit"
      case ExportAndSaveStep => "Export"
    }

    /** The edit and export steps show their views only when the data they need is present. */
    function CurrentScreen(): (r: Screen)
      reads this
      ensures step == EditAndAdjustStep ==>
        (r.EditScreen? <==> sourceImage != None && selectedPreset != None)
      ensures step == ExportAndSaveStep ==>
        (r.ExportScreen? <==> sourceImage != None && selectedPreset != None && cropState != None)
      ensures r.EditScreen? ==> Some(r.image) == sourceImage && Some(r.preset) == selectedPreset
      ensures r.ExportScreen? ==> Some(r.image) == sourceImage && Some(r.preset) == selectedPreset && Some(r.crop) == cropState
    {
      match step
      case UploadPhotoStep => UploadScreen
      case ChooseFormatStep => ChooseFormatScreen
      case EditAndAdjustStep =>
        if sourceImage.Some? && selectedPreset.Some? then EditScreen(sourceImage.value, selectedPreset.value)
        else MissingData("Missing Data")
      case ExportAndSaveStep =>
        if sourceImage.Some? && selectedPreset.Some? && cropState.Some? then
          ExportScreen(sourceImage.value, selectedPreset.value, cropState.value)
        else MissingData("Export & Save")
    }

    /** The upload step confirmed a photo. */
    method PhotoConfirmed(image: Image)
      modifies this`sourceImage, this`step
      ensures sourceImage == Some(image) && step == ChooseFormatStep
    {
      sourceImage := Some(image);
      step := ChooseFormatStep;
    }

    /** The upload step changed mode; only the title follows it. */
    method UploadModeChanged(mode: UploadPhoto.Mode)
      modifies this`uploadStepTitle
      ensures uploadStepTitle == UploadTitle(mode)
    {
      uploadStepTitle := UploadTitle(mode);
    }

    /** A preset was chosen. */
    method PresetSelected(preset: PhotoPreset)
      modifies this`selectedPreset, this`step
      ensures selectedPreset == Some(preset) && step == EditAndAdjustStep
    {
      selectedPreset := Some(preset);
      step := EditAndAdjustStep;
    }

    /** The edit step's Back button. */
    method EditBack()
      modifies this`step
      ensures step == ChooseFormatStep
    {
      step := ChooseFormatStep;
    }

    /** The edit step's Next button, carrying the crop. */
    method EditNext(state: CropState)
      modifies this`cropState, this`step
      ensures cropState == Some(state) && step == ExportAndSaveStep
    {
      cropState := Some(state);
      step := ExportAndSaveStep;
    }

    /** The export step's Back button. */
    method ExportBack()
      modifies this`step
      ensures step == EditAndAdjustStep
    {
      step := EditAndAdjustStep;
    }

    /** Back to the first step with everything the later steps collected dropped. */
    method ResetFlow()
      modifies this`step, this`sourceImage, this`selectedPreset, this`cropState
      ensures step == UploadPhotoStep && sourceImage == None && selectedPreset == None && cropState == None
    {
      step := UploadPhotoStep;
      sourceImage := None;
      selectedPreset := None;
      cropState := None;
    }

    /** The export step's Complete button: reset, then dismiss. */
    method HandleFlowCompletion()
      modifies this
      ensures step == UploadPhotoStep && sourceImage == None && selectedPreset == None && cropState == None
      ensures dismissals == old(dismissals) + 1 && uploadStepTitle == old(uploadStepTitle)
    {
      ResetFlow();
      dismissals := dismissals + 1;
    }

    /** The toolbar's back button: one step back, or dismissal from the first step. */
    method GoBack()
      modifies this`step, this`dismissals
      ensures PreviousStep(old(step)) == None ==> step == old(step) && dismissals == old(dismissals) + 1
      ensures PreviousStep(old(step)) != None ==>
        Some(step) == PreviousStep(old(step)) && dismissals == old(dismissals)
    {
      match step
      case UploadPhotoStep => dismissals := dismissals + 1;
      case ChooseFormatStep => step := UploadPhotoStep;
      case EditAndAdjustStep => step := ChooseFormatStep;
      case ExportAndSaveStep => step := EditAndAdjustStep;
    }
  }

  /** Preset ids and labels that get the United States' 2 x 2 inch format. */
  predicate IsUSPassportOrVisa(preset: PhotoPreset) {
    || preset.id == "us_passport"
    || preset.id == "us-passport"
    || preset.id == "us_visa"
    || preset.labelText == "United States \U{2013} Passport"
    || preset.labelText == "United States \U{2013} Visa"
    || preset.labelText == "US Passport"
    || preset.labelText == "US Visa"
  }

  const MillimetresPerInch: real := 25.4

  /** The pixels one side of `mm` millimetres takes at `dpi`, before clamping to at least 1. */
  function ExactPixels(mm: real, dpi: int): real {
    mm / MillimetresPerInch * (dpi as real)
  }

  /**
   * The exported bitmap's pixel size: a 2-inch square for the United States'
   * formats, otherwise each side rounded to the nearest pixel at the preset's
   * dpi. Either way neither side is below 1.
   */
  function ExportPixelSize(preset: PhotoPreset): (r: (int, int))
    ensures r.0 >= 1 && r.1 >= 1
    ensures IsUSPassportOrVisa(preset) ==> r.0 == r.1 == MaxInt(2 * preset.dpi, 1)
    ensures !IsUSPassportOrVisa(preset) ==>
      && r.0 == MaxInt(Round(ExactPixels(preset.widthMM, preset.dpi)), 1)
      && r.1 == MaxInt(Round(ExactPixels(preset.heightMM, preset.dpi)), 1)
  {
    if IsUSPassportOrVisa(preset) then
      RoundHalfAwayFromZero(2 * preset.dpi);
      var side := MaxInt(Round((preset.dpi as real) * 2.0), 1);
      (side, side)
    else
      var widthPx := MaxInt(Round(ExactPixels(preset.widthMM, preset.dpi)), 1);
      var heightPx := MaxInt(Round(ExactPixels(preset.heightMM, preset.dpi)), 1);
      (widthPx, heightPx)
  }

  /** Away from the 2-inch formats, a side of at least half a pixel is within half a pixel of its exact size. */
  lemma ExportPixelSizeNearest(preset: PhotoPreset)
    requires !IsUSPassportOrVisa(preset)
    ensures var exact := ExactPixels(preset.widthMM, preset.dpi);
      exact >= 0.5 ==> exact - 0.5 <= ExportPixelSize(preset).0 as real <= exact + 0.5
    ensures var exact := ExactPixels(preset.heightMM, preset.dpi);
      exact >= 0.5 ==> exact - 0.5 <= ExportPixelSize(preset).1 as real <= exact + 0.5
  {
  }

  /** The US formats are square whatever the preset's millimetre sizes say. */
  lemma USFormatsSquare(preset: PhotoPreset, widthMM: real, heightMM: real)
    requires IsUSPassportOrVisa(preset)
    ensures ExportPixelSize(preset.(widthMM := widthMM, heightMM := heightMM)) == ExportPixelSize(preset)
    ensures ExportPixelSize(preset).0 == ExportPixelSize(preset).1
  {
  }

  /** The encoded output of the render: the bitmap shown and the JPEG bytes shared or saved. */
  datatype Encoded = Encoded(image: Image, data: seq<int>)

  datatype ExportResult = ExportResult(image: Image, data: seq<int>, widthPx: int, heightPx: int, dpi: int)

  /** What `PhotoExporter.render` returns, given the encoding it produced. */
  function Render(preset: PhotoPreset, encoded: Encoded): (r: ExportResult)
    ensures r.widthPx >= 1 && r.heightPx >= 1 && r.dpi == preset.dpi
    ensures IsUSPassportOrVisa(preset) ==> r.widthPx == r.heightPx == MaxInt(2 * preset.dpi, 1)
    ensures var exact := ExactPixels(preset.widthMM, preset.dpi);
      !IsUSPassportOrVisa(preset) && exact >= 0.5 ==> exact - 0.5 <= r.widthPx as real <= exact + 0.5
    ensures var exact := ExactPixels(preset.heightMM, preset.dpi);
      !IsUSPassportOrVisa(preset) && exact >= 0.5 ==> exact - 0.5 <= r.heightPx as real <= exact + 0.5
    ensures r.image == encoded.image && r.data == encoded.data
  {
    var size := ExportPixelSize(preset);
    var r := ExportResult(encoded.image, encoded.data, size.0, size.1, preset.dpi);
    if IsUSPassportOrVisa(preset) then r
    else ExportPixelSizeNearest(preset); r
  }

  /** The export step: it renders its result once, on first appearance. */
  class ExportAndSaveState {
    const preset: PhotoPreset
    const crop: CropState
    var exportResult: Option<ExportResult>
    /** How many renders have run. */
    var renders: nat

    constructor (preset: PhotoPreset, crop: CropState)
      ensures this.preset == preset && this.crop == crop && exportResult == None && renders == 0
    {
      this.preset, this.crop := preset, crop;
      exportResult := None;
      renders := 0;
    }

    /** Whether the save and share buttons are enabled. */
    function HasResult(): bool
      reads this
    {
      exportResult.Some?
    }

    /** Renders when there is no result yet; with a result present it does nothing. */
    method GenerateExportIfNeeded(encoded: Encoded)
      modifies this`exportResult, this`renders
      ensures old(exportResult) != None ==> exportResult == old(exportResult) && renders == old(renders)
      ensures old(exportResult) == None ==>
        exportResult == Some(Render(preset, encoded)) && renders == old(renders) + 1
      ensures renders <= old(renders) + 1 && HasResult()
    {
      if exportResult != None {
        return;
      }
      exportResult := Some(Render(preset, encoded));
      renders := renders + 1;
    }
  }
}
