/** The avatar component (`AvatarComponent`): the saliency crop without any
    offset, its zero-rectangle fallback, and the webcam toggle and error log. */
module Avatar {
  import opened Wrappers
  import opened CropRect

  /** An error reported while starting the webcam. */
  datatype WebcamInitError = WebcamInitError(message: string)

  /** Rectangle used when no crop has been computed yet. */
  const ZeroCropper: CropperPosition := CropperPosition(0.0, 0.0, 0.0, 0.0)

  /** The rectangle `analyze` derives from the cropper's suggestion: the
      suggestion itself, in corner form, with no offset. */
  function AvatarRect(t: TopCrop): (r: CropperPosition)
    ensures r == Corners(t)
    ensures r.x1 == t.x && r.y1 == t.y
    ensures r.x2 == t.x + t.width && r.y2 == t.y + t.height
    ensures Width(r) == t.width && Height(r) == t.height
    ensures Extent(r) == t
  {
    CropperPosition(t.x, t.y, t.width + t.x, t.height + t.y)
  }

  class AvatarComponent {
    var cropper: CropperPosition
    var currentCropper: Option<CropperPosition>
    var showWebcam: bool
    var errors: seq<WebcamInitError>

    constructor ()
      ensures cropper == ZeroCropper && currentCropper == None
      ensures showWebcam && errors == []
    {
      cropper := CropperPosition(0.0, 0.0, 0.0, 0.0);
      currentCropper := None;
      showWebcam := true;
      errors := [];
    }

    /** `toggleWebcam`: flips the flag, so a second call restores it. */
    method ToggleWebcam()
      modifies this`showWebcam
      ensures showWebcam != old(showWebcam)
    {
      showWebcam := !showWebcam;
    }

    /** `handleInitError`: the error goes at the end, earlier ones stay. */
    method HandleInitError(error: WebcamInitError)
      modifies this`errors
      ensures |errors| == |old(errors)| + 1
      ensures errors[..|old(errors)|] == old(errors) && errors[|old(errors)|] == error
    {
      errors := errors + [error];
    }

    /** `analyze`, with `topCrop` the saliency cropper's suggestion. */
    method Analyze(topCrop: TopCrop)
      modifies this`currentCropper
      ensures currentCropper == Some(AvatarRect(topCrop))
    {
      currentCropper := Some(CropperPosition(topCrop.x, topCrop.y,
                                             topCrop.width + topCrop.x, topCrop.height + topCrop.y));
    }

    /** `cropperReady`: show the computed crop, or the all-zero one. */
    method CropperReady()
      modifies this`cropper
      ensures old(currentCropper).Some? ==> cropper == old(currentCropper).value
      ensures old(currentCropper).None? ==> cropper == ZeroCropper
    {
      match currentCropper
      case Some(c) => cropper := c;
      case None => cropper := CropperPosition(0.0, 0.0, 0.0, 0.0);
    }
  }
}
