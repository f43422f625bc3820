/**
 * The first step of the photo wizard (`UploadPhotoView`): choosing a source,
 * previewing the picked photo, and the aspect-fill rectangle the preview is
 * drawn into.
 */
module UploadPhoto {
  import opened Wrappers
  import opened Geometry

  datatype Mode = ChooseSource | Preview

  datatype ActivePicker = Camera | Library

  /** The preview bitmap's size when the caller gives none. */
  const PreviewTarget: Size := Size(1200.0, 1600.0)

  /**
   * Where the image is drawn so that it fills `target`: scaled to the target's
   * height when it is relatively wider, else to the target's width, and
   * centred on the axis that overflows.
   */
  function AspectFillRect(imageSize: Size, target: Size): Rect
    requires target.height != 0.0 && imageSize.width != 0.0 && imageSize.height != 0.0
  {
    var targetRatio := target.width / target.height;
    var imageRatio := imageSize.width / imageSize.height;
    if imageRatio > targetRatio then
      var newHeight := target.height;
      var newWidth := newHeight * imageRatio;
      Rect(Point((target.width - newWidth) / 2.0, 0.0), Size(newWidth, newHeight))
    else
      var newWidth := target.width;
      var newHeight := newWidth / imageRatio;
      Rect(Point(0.0, (target.height - newHeight) / 2.0), Size(newWidth, newHeight))
  }

  /**
   * For positive sizes the draw rect covers the target on both axes, matches
   * it exactly on one, keeps the image's aspect ratio and is centred on the
   * target.
   */
  lemma AspectFillCovers(imageSize: Size, target: Size)
    requires target.width > 0.0 && target.height > 0.0 && imageSize.width > 0.0 && imageSize.height > 0.0
    ensures var r := AspectFillRect(imageSize, target);
      && r.size.width >= target.width && r.size.height >= target.height
      && (r.size.width == target.width || r.size.height == target.height)
      && r.size.width * imageSize.height == r.size.height * imageSize.width
      && r.MidX() == target.width / 2.0 && r.MidY() == target.height / 2.0
  {
    var r := AspectFillRect(imageSize, target);
    var targetRatio := target.width / target.height;
    var imageRatio := imageSize.width / imageSize.height;
    assert imageRatio * imageSize.height == imageSize.width;
    assert targetRatio * target.height == target.width;
    if imageRatio > targetRatio {
      assert r.size == Size(target.height * imageRatio, target.height);
      assert target.height * imageRatio >= target.height * targetRatio;
    } else {
      assert r.size == Size(target.width, target.width / imageRatio);
      var h := target.width / imageRatio;
      assert h * imageRatio == target.width;
      assert h * imageRatio == targetRatio * target.height;
      assert h * imageRatio <= h * targetRatio;
      assert h >= target.height;
      assert h * imageSize.width == h * (imageRatio * imageSize.height);
    }
  }

  /** The upload step's view state, and what it has reported to the wizard. */
  class UploadPhotoState {
    var mode: Mode
    var originalImage: Option<Image>
    var previewImage: Option<Image>
    var activePicker: Option<ActivePicker>
    var isPreparingPhoto: bool
    /** The wizard's `selectedImage`, written through the binding. */
    var selectedImage: Option<Image>
    /** Every mode passed to `onModeChange`, oldest first. */
    var modeChanges: seq<Mode>
    /** Every image passed to `onPhotoConfirmed`, oldest first. */
    var confirmed: seq<Image>

    constructor (selectedImage: Option<Image>)
      ensures mode == ChooseSource && originalImage == None && previewImage == None
      ensures activePicker == None && !isPreparingPhoto
      ensures this.selectedImage == selectedImage && modeChanges == [] && confirmed == []
    {
      mode := ChooseSource;
      originalImage, previewImage, activePicker := None, None, None;
      isPreparingPhoto := false;
      this.selectedImage := selectedImage;
      modeChanges, confirmed := [], [];
    }

    /** What the sheet binding for `picker` reads: whether that picker is the active one. */
    function IsPresented(picker: ActivePicker): (r: bool)
      reads this
      ensures r <==> activePicker == Some(picker)
    {
      match activePicker
      case Some(p) => p == picker
      case None => false
    }

    /**
     * What the sheet binding for `picker` writes: true selects it; false
     * dismisses it only if it is the active one, so closing one sheet cannot
     * dismiss the other.
     */
    method SetPresented(picker: ActivePicker, value: bool)
      modifies this`activePicker
      ensures value ==> activePicker == Some(picker)
      ensures !value && old(activePicker) == Some(picker) ==> activePicker == None
      ensures !value && old(activePicker) != Some(picker) ==> activePicker == old(activePicker)
      ensures IsPresented(picker) == value
    {
      if value {
        activePicker := Some(picker);
      } else if activePicker == Some(picker) {
        activePicker := None;
      }
    }

    /** The view appearing reports its current mode. */
    method Appear()
      modifies this`modeChanges
      ensures modeChanges == old(modeChanges) + [mode]
    {
      modeChanges := modeChanges + [mode];
    }

    method SetMode(newMode: Mode)
      modifies this`mode, this`modeChanges
      ensures mode == newMode && modeChanges == old(modeChanges) + [newMode]
    {
      mode := newMode;
      modeChanges := modeChanges + [newMode];
    }

    /**
     * A picker delivered `image` and the background render produced
     * `rendered`: both are kept and the view switches to preview. A picker
     * that delivered nothing changes nothing.
     */
    method HandleImageSelection(image: Option<Image>, rendered: Image)
      modifies this
      ensures image == None ==>
        && mode == old(mode) && originalImage == old(originalImage) && previewImage == old(previewImage)
        && activePicker == old(activePicker) && isPreparingPhoto == old(isPreparingPhoto)
        && selectedImage == old(selectedImage) && modeChanges == old(modeChanges) && confirmed == old(confirmed)
      ensures image != None ==>
        && originalImage == image && previewImage == Some(rendered)
        && mode == Preview && modeChanges == old(modeChanges) + [Preview]
        && !isPreparingPhoto
        && activePicker == old(activePicker) && selectedImage == old(selectedImage) && confirmed == old(confirmed)
    {
      if image.None? {
        return;
      }
      isPreparingPhoto := true;
      originalImage := image;
      previewImage := Some(rendered);
      SetMode(Preview);
      isPreparingPhoto := false;
    }

    /** Retake: drops both images and goes back to choosing a source. */
    method Retake()
      modifies this
      ensures originalImage == None && previewImage == None
      ensures mode == ChooseSource && modeChanges == old(modeChanges) + [ChooseSource]
      ensures activePicker == old(activePicker) && isPreparingPhoto == old(isPreparingPhoto)
      ensures selectedImage == old(selectedImage) && confirmed == old(confirmed)
    {
      originalImage := None;
      previewImage := None;
      SetMode(ChooseSource);
    }

    /** Whether "Use Photo" is enabled. */
    function CanUsePhoto(): (r: bool)
      reads this
      ensures r <==> previewImage != None
    {
      previewImage.Some?
    }

    /** "Use Photo": hands the preview to the wizard; without a preview it does nothing. */
    method UsePhoto()
      modifies this
      ensures old(previewImage) == None ==>
        && selectedImage == old(selectedImage) && confirmed == old(confirmed)
        && isPreparingPhoto == old(isPreparingPhoto)
      ensures old(previewImage) != None ==>
        && selectedImage == old(previewImage)
        && confirmed == old(confirmed) + [old(previewImage).value]
        && !isPreparingPhoto
      ensures mode == old(mode) && originalImage == old(originalImage) && previewImage == old(previewImage)
      ensures activePicker == old(activePicker) && modeChanges == old(modeChanges)
    {
      if previewImage.Some? {
        var image := previewImage.value;
        isPreparingPhoto := true;
        selectedImage := Some(image);
        confirmed := confirmed + [image];
        isPreparingPhoto := false;
      }
    }
  }
}
