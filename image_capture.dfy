/**
 * The image-record composer on the home screen (`ImageCaptureTester`) and
 * the pinch/double-tap zoom of its full-screen viewer (`ZoomableImageView`).
 */
module ImageCapture {
  import opened Wrappers
  import opened Geometry

  const NoImageMessage: string := "Please select an image before saving."

  /** A request to the record store to create an image record. */
  datatype CreateRequest = CreateRequest(note: string, image: Image)

  /** The composer's state; `requests` records the calls to the store's `createImageRecord`. */
  class Composer {
    var note: string
    var selectedImage: Option<Image>
    var localErrorMessage: Option<string>
    var requests: seq<CreateRequest>

    constructor ()
      ensures note == "" && selectedImage == None && localErrorMessage == None && requests == []
    {
      note, selectedImage, localErrorMessage, requests := "", None, None, [];
    }

    /** Whether "Save image record" is enabled. */
    function CanSave(): (r: bool)
      reads this
      ensures r <==> selectedImage != None
    {
      selectedImage.Some?
    }

    /**
     * "Save image record": without an image it only shows the error; with one
     * it asks the store for exactly one record from the note and the image and
     * clears the composer.
     */
    method SaveRecord()
      modifies this
      ensures old(selectedImage) == None ==>
        && localErrorMessage == Some(NoImageMessage)
        && requests == old(requests) && note == old(note) && selectedImage == None
      ensures old(selectedImage) != None ==>
        && requests == old(requests) + [CreateRequest(old(note), old(selectedImage).value)]
        && note == "" && selectedImage == None && localErrorMessage == None
    {
      if selectedImage.None? {
        localErrorMessage := Some(NoImageMessage);
        return;
      }
      localErrorMessage := None;
      requests := requests + [CreateRequest(note, selectedImage.value)];
      ResetComposer();
    }

    method ResetComposer()
      modifies this`note, this`selectedImage, this`localErrorMessage
      ensures note == "" && selectedImage == None && localErrorMessage == None
    {
      note := "";
      selectedImage := None;
      localErrorMessage := None;
    }

    /** A picker's result: a cancelled picker (no image) leaves everything as it was. */
    method ApplyPickedImage(image: Option<Image>)
      modifies this`selectedImage, this`localErrorMessage
      ensures image == None ==> selectedImage == old(selectedImage) && localErrorMessage == old(localErrorMessage)
      ensures image != None ==> selectedImage == image && localErrorMessage == None
    {
      if image.None? {
        return;
      }
      selectedImage := image;
      localErrorMessage := None;
    }

    /** "Remove photo". */
    method RemovePhoto()
      modifies this`selectedImage
      ensures selectedImage == None
    {
      selectedImage := None;
    }
  }

  const MinZoom: real := 1.0
  const MaxZoom: real := 5.0

  /** The double-tap toggle: back to 1 when zoomed in past 1.1, else to 2. */
  function DoubleTapZoom(zoom: real): (r: real)
    ensures r == 1.0 || r == 2.0
    ensures r == 1.0 <==> zoom > 1.1
  {
    if zoom > 1.1 then 1.0 else 2.0
  }

  /** The viewer's zoom. The pinch gesture reports cumulative magnifications, which are positive. */
  class ZoomState {
    var zoomScale: real
    var lastZoomScale: real

    ghost predicate Valid()
      reads this
    {
      MinZoom <= zoomScale <= MaxZoom && lastZoomScale > 0.0
    }

    constructor ()
      ensures Valid() && zoomScale == 1.0 && lastZoomScale == 1.0
    {
      zoomScale, lastZoomScale := 1.0, 1.0;
    }

    /** A pinch update multiplies the zoom by the change since the last update, clamped to [1, 5]. */
    method PinchChanged(value: real)
      requires Valid() && value > 0.0
      modifies this
      ensures Valid()
      ensures lastZoomScale == value
      ensures zoomScale == Clamp(old(zoomScale) * (value / old(lastZoomScale)), MinZoom, MaxZoom)
    {
      var delta := value / lastZoomScale;
      var z := zoomScale;
      lastZoomScale := value;
      zoomScale := Clamp(z * delta, MinZoom, MaxZoom);
    }

    /** The end of a pinch restarts the cumulative factor; the zoom is never left below 1. */
    method PinchEnded()
      requires Valid()
      modifies this
      ensures Valid()
      ensures lastZoomScale == 1.0 && zoomScale == old(zoomScale)
    {
      lastZoomScale := 1.0;
      zoomScale := Max(zoomScale, MinZoom);
    }

    method DoubleTap()
      requires Valid()
      modifies this`zoomScale
      ensures Valid()
      ensures zoomScale == DoubleTapZoom(old(zoomScale))
    {
      zoomScale := if zoomScale > 1.1 then 1.0 else 2.0;
    }
  }
}
