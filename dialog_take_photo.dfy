/** The photo dialog (`DialogTakePhotoComponent`): face-result bookkeeping,
    crop reconciliation, the keyboard-driven crop adjuster and the payload
    sent for validation. */
module DialogTakePhoto {
  import opened Wrappers
  import opened CropRect
  import JsString

  // ---------------------------------------------------------------------
  // Keyboard mapping
  // ---------------------------------------------------------------------

  /** `KeyboardEvent.code` values the dialog reacts to (the `KEY_CODE` table). */
  const ArrowUpCode: string := "ArrowUp"
  const ArrowDownCode: string := "ArrowDown"
  const ArrowRightCode: string := "ArrowRight"
  const ArrowLeftCode: string := "ArrowLeft"
  const EqualCode: string := "Equal"
  const MinusCode: string := "Minus"

  /** The command a released key triggers, if any. */
  function KeyCommand(code: string): (r: Option<Command>)
    ensures r.None? <==> code !in {ArrowUpCode, ArrowDownCode, ArrowRightCode, ArrowLeftCode, EqualCode, MinusCode}
  {
    if code == ArrowUpCode then Some(DownY)
    else if code == ArrowDownCode then Some(UpY)
    else if code == ArrowRightCode then Some(UpX)
    else if code == ArrowLeftCode then Some(DownX)
    else if code == EqualCode then Some(ZoomIn)
    else if code == MinusCode then Some(ZoomOut)
    else None
  }

  /** The key that triggers a command. */
  function CommandKey(cmd: Command): string
  {
    match cmd
    case DownY => ArrowUpCode
    case UpY => ArrowDownCode
    case UpX => ArrowRightCode
    case DownX => ArrowLeftCode
    case ZoomIn => EqualCode
    case ZoomOut => MinusCode
  }

  /** Every command has exactly one key. */
  lemma KeyCommandBijective(cmd: Command, code: string)
    ensures KeyCommand(CommandKey(cmd)) == Some(cmd)
    ensures KeyCommand(code) == Some(cmd) ==> code == CommandKey(cmd)
  {
  }

  /** What each key does to the rectangle: the arrow keys move it one step in
      the arrow's direction on screen (y grows downwards), `=` and `-` zoom. */
  lemma KeyEffects(c: CropperPosition)
    ensures KeyCommand(ArrowUpCode).Some? && Apply(KeyCommand(ArrowUpCode).value, c) == Shifted(c, 0.0, -Step)
    ensures KeyCommand(ArrowDownCode).Some? && Apply(KeyCommand(ArrowDownCode).value, c) == Shifted(c, 0.0, Step)
    ensures KeyCommand(ArrowRightCode).Some? && Apply(KeyCommand(ArrowRightCode).value, c) == Shifted(c, Step, 0.0)
    ensures KeyCommand(ArrowLeftCode).Some? && Apply(KeyCommand(ArrowLeftCode).value, c) == Shifted(c, -Step, 0.0)
    ensures KeyCommand(EqualCode).Some? &&
      Apply(KeyCommand(EqualCode).value, c) == CropperPosition(c.x1, c.y1, c.x2 * ZoomInFactor, c.y2 * ZoomInFactor)
    ensures KeyCommand(MinusCode).Some? &&
      Apply(KeyCommand(MinusCode).value, c) == CropperPosition(c.x1, c.y1, c.x2 * ZoomOutFactor, c.y2 * ZoomOutFactor)
  {
  }

  // ---------------------------------------------------------------------
  // The adjuster as a state machine
  // ---------------------------------------------------------------------

  /** The part of the dialog's state the keyboard acts on: `cropper` and `isEditByKeyBoard`. */
  datatype Adjuster = Adjuster(cropper: CropperPosition, editEnabled: bool)

  /** `enableEditCropByKeyBoard()` or a `keyup` event with its `code`. */
  datatype Event = EnableEdit | KeyUp(code: string)

  /** The state after one event. */
  function Next(s: Adjuster, e: Event): (r: Adjuster)
    // the flag is sticky: nothing switches it off
    ensures s.editEnabled ==> r.editEnabled
    ensures e.EnableEdit? ==> r == s.(editEnabled := true)
    // keys never touch the flag, and do nothing while it is off
    ensures e.KeyUp? ==> r.editEnabled == s.editEnabled
    ensures e.KeyUp? && !s.editEnabled ==> r == s
    // an unmapped key does nothing
    ensures e.KeyUp? && KeyCommand(e.code).None? ==> r == s
    // a mapped key, while editing is on, applies its command to the rectangle
    ensures e.KeyUp? && s.editEnabled && KeyCommand(e.code).Some? ==>
      r.cropper == Apply(KeyCommand(e.code).value, s.cropper)
  {
    match e
    case EnableEdit => s.(editEnabled := true)
    case KeyUp(code) =>
      if s.editEnabled then
        match KeyCommand(code)
        case Some(cmd) => s.(cropper := Apply(cmd, s.cropper))
        case None => s
      else s
  }

  /** The state after a sequence of events. */
  function Trace(s: Adjuster, es: seq<Event>): Adjuster
    decreases |es|
  {
    if es == [] then s else Trace(Next(s, es[0]), es[1..])
  }

  /** The commands the keys of an event sequence map to, in order. */
  function Commands(es: seq<Event>): seq<Command>
    decreases |es|
  {
    if es == [] then []
    else
      var rest := Commands(es[1..]);
      match es[0]
      case EnableEdit => rest
      case KeyUp(code) =>
        match KeyCommand(code)
        case Some(cmd) => [cmd] + rest
        case None => rest
  }

  /** Once keyboard editing is on, it stays on whatever happens. */
  lemma {:induction false} EditStaysEnabled(s: Adjuster, es: seq<Event>)
    requires s.editEnabled
    ensures Trace(s, es).editEnabled
    decreases |es|
  {
    if es != [] {
      EditStaysEnabled(Next(s, es[0]), es[1..]);
    }
  }

  /** While editing is off, key events leave the rectangle as it is. */
  lemma {:induction false} KeysIgnoredWhileDisabled(s: Adjuster, es: seq<Event>)
    requires !s.editEnabled
    requires forall i :: 0 <= i < |es| ==> es[i].KeyUp?
    ensures Trace(s, es) == s
    decreases |es|
  {
    if es != [] {
      assert es[0].KeyUp?;
      KeysIgnoredWhileDisabled(Next(s, es[0]), es[1..]);
    }
  }

  /** Once editing is on, a sequence of events runs exactly the commands its
      keys map to, in order. */
  lemma {:induction false} EnabledRunsCommands(s: Adjuster, es: seq<Event>)
    requires s.editEnabled
    ensures Trace(s, es) == Adjuster(Run(s.cropper, Commands(es)), true)
    decreases |es|
  {
    if es != [] {
      EnabledRunsCommands(Next(s, es[0]), es[1..]);
      match es[0]
      case EnableEdit =>
      case KeyUp(code) =>
        match KeyCommand(code)
        case Some(cmd) =>
          assert Commands(es) == [cmd] + Commands(es[1..]);
          assert ([cmd] + Commands(es[1..]))[1..] == Commands(es[1..]);
        case None =>
    }
  }

  // ---------------------------------------------------------------------
  // Face results and the crop reconciliation
  // ---------------------------------------------------------------------

  /** A face found by the detector (an OpenCV `Rect`, integer pixels). */
  datatype FaceRect = FaceRect(x: int, y: int, width: int, height: int)

  /** A weighted region the saliency cropper is biased towards. */
  datatype BoostRegion = BoostRegion(x: int, y: int, width: int, height: int, weight: real)

  /** The saliency cropper's options (`this.options`); `boost` starts out `null`. */
  datatype CropOptions = CropOptions(width: int, height: int, minScale: real, boost: Option<seq<BoostRegion>>, debug: bool)

  const InitialOptions: CropOptions := CropOptions(35, 45, 0.8, None, true)

  /** Weight given to every detected face. */
  const FaceWeight: real := 1.0

  const NoFaceMessage: string := "No face in camera!"

  /** Horizontal correction the dialog applies to the cropper's suggestion. */
  const HorizontalOffset: real := 50.0

  /** Rectangle used when no crop has been computed yet. */
  const DefaultCropper: CropperPosition := CropperPosition(0.0, 0.0, 35.0, 45.0)

  /** `b` is the boost region of face `f`: same box, weight 1.0. */
  ghost predicate BoostOf(b: BoostRegion, f: FaceRect)
  {
    b.x == f.x && b.y == f.y && b.width == f.width && b.height == f.height && b.weight == FaceWeight
  }

  /** One boost region per face, in the faces' order. */
  ghost predicate BoostsFor(boost: seq<BoostRegion>, faces: seq<FaceRect>)
  {
    |boost| == |faces| && forall i :: 0 <= i < |faces| ==> BoostOf(boost[i], faces[i])
  }

  /** The boost list is determined by the faces. */
  lemma BoostsForUnique(a: seq<BoostRegion>, b: seq<BoostRegion>, faces: seq<FaceRect>)
    requires BoostsFor(a, faces) && BoostsFor(b, faces)
    ensures a == b
  {
  }

  /** The loop of `handleImage` that turns the detected faces into boost regions. */
  method BuildBoost(faces: seq<FaceRect>) returns (boost: seq<BoostRegion>)
    ensures BoostsFor(boost, faces)
  {
    boost := [];
    for i := 0 to |faces|
      invariant BoostsFor(boost, faces[..i])
    {
      var face := faces[i];
      boost := boost + [BoostRegion(face.x, face.y, face.width, face.height, 1.0)];
    }
    assert faces[..|faces|] == faces;
  }

  /** The rectangle `analyze` derives from the cropper's suggestion: the
      suggestion moved 50 to the left, same size. */
  function DialogRect(t: TopCrop): (r: CropperPosition)
    ensures r == Shifted(Corners(t), -HorizontalOffset, 0.0)
    ensures r.x1 == t.x - HorizontalOffset && r.y1 == t.y
    ensures Width(r) == t.width && Height(r) == t.height
  {
    CropperPosition(t.x - 50.0, t.y, t.x + t.width - 50.0, t.y + t.height)
  }

  /** A worked case: suggestion at (10, 20) of size 300 x 400. */
  lemma DialogRectExample()
    ensures DialogRect(TopCrop(10.0, 20.0, 300.0, 400.0)) == CropperPosition(-40.0, 20.0, 260.0, 420.0)
  {
  }

  // ---------------------------------------------------------------------
  // Validation payload
  // ---------------------------------------------------------------------

  /** Length of the header `validatePhoto` removes. */
  const HeaderLength: nat := 22

  /** The data-URL header of a PNG image. */
  const PngDataUrlPrefix: string := "data:image/png;base64,"

  /** `croppedImage.substring(22, croppedImage.length)`. */
  function StripHeader(s: string): (r: string)
    ensures |s| >= HeaderLength ==> s == s[..HeaderLength] + r
    ensures |s| < HeaderLength ==> r == ""
  {
    JsString.Substring(s, 22, |s|)
  }

  /** The fixed length is that of the PNG data-URL header, so stripping a PNG
      data URL leaves exactly its base64 payload. */
  lemma StripPngHeader(payload: string)
    ensures |PngDataUrlPrefix| == HeaderLength
    ensures StripHeader(PngDataUrlPrefix + payload) == payload
  {
  }

  // ---------------------------------------------------------------------
  // The component
  // ---------------------------------------------------------------------

  class DialogTakePhotoComponent {
    var cropper: CropperPosition
    var currentCropper: Option<CropperPosition>
    var isEditByKeyBoard: bool
    var currentFace: int
    var message: string
    var options: CropOptions
    var validatorStatus: string
    var isSkipValidator: bool

    /** The adjuster state held by this component. */
    ghost function AdjusterState(): Adjuster
      reads this
    {
      Adjuster(cropper, isEditByKeyBoard)
    }

    constructor ()
      ensures cropper == CropperPosition(0.0, 0.0, 0.0, 0.0) && currentCropper == None
      ensures !isEditByKeyBoard
      ensures currentFace == 0 && message == "" && options == InitialOptions
      ensures validatorStatus == "" && isSkipValidator
    {
      cropper := CropperPosition(0.0, 0.0, 0.0, 0.0);
      currentCropper := None;
      isEditByKeyBoard := false;
      currentFace := 0;
      message := "";
      options := InitialOptions;
      validatorStatus := "";
      isSkipValidator := true;
    }

    /** `handleImage` once detection has run: `faces` is the detector's result
        and `topCrop` what the saliency cropper suggests for the options. */
    method HandleImage(faces: seq<FaceRect>, topCrop: TopCrop)
      modifies this`currentFace, this`message, this`options, this`currentCropper
      ensures |faces| > 0 ==>
        && currentFace == |faces|
        && options.boost.Some? && BoostsFor(options.boost.value, faces)
        && options == old(options).(boost := options.boost)
        && message == old(message)
        && currentCropper == Some(DialogRect(topCrop))
      ensures |faces| == 0 ==>
        && currentFace == 0
        && message == NoFaceMessage
        && options == old(options)
        && currentCropper == old(currentCropper)
    {
      if |faces| > 0 {
        currentFace := |faces|;
        var boost := BuildBoost(faces);
        options := options.(boost := Some(boost));
        Analyze(faces[0], topCrop);
      } else {
        currentFace := 0;
        message := NoFaceMessage;
      }
    }

    /** `analyze`: the face it is given plays no part in the result. */
    method Analyze(face: FaceRect, topCrop: TopCrop)
      modifies this`currentCropper
      ensures currentCropper == Some(DialogRect(topCrop))
    {
      currentCropper := Some(CropperPosition(topCrop.x - 50.0, topCrop.y,
                                             topCrop.x + topCrop.width - 50.0, topCrop.y + topCrop.height));
    }

    /** `cropperReady`: show the computed crop, or the default one. */
    method CropperReady()
      modifies this`cropper
      ensures old(currentCropper).Some? ==> cropper == old(currentCropper).value
      ensures old(currentCropper).None? ==> cropper == DefaultCropper
    {
      match currentCropper
      case Some(c) => cropper := c;
      case None => cropper := CropperPosition(0.0, 0.0, 35.0, 45.0);
    }

    method EnableEditCropByKeyBoard()
      modifies this`isEditByKeyBoard
      ensures AdjusterState() == Next(old(AdjusterState()), EnableEdit)
    {
      isEditByKeyBoard := true;
    }

    /** `keyEvent` on a `keyup` with the given code. */
    method KeyEvent(code: string)
      modifies this`cropper
      ensures AdjusterState() == Next(old(AdjusterState()), KeyUp(code))
    {
      if isEditByKeyBoard {
        if code == ArrowUpCode {
          DownY();
        }
        if code == ArrowDownCode {
          UpY();
        }
        if code == ArrowRightCode {
          UpX();
        }
        if code == ArrowLeftCode {
          DownX();
        }
        if code == EqualCode {
          ZoomIn();
        }
        if code == MinusCode {
          ZoomOut();
        }
      }
    }

    method DownX()
      modifies this`cropper
      ensures cropper == Apply(Command.DownX, old(cropper))
    {
      cropper := CropperPosition(cropper.x1 - 10.0, cropper.y1, cropper.x2 - 10.0, cropper.y2);
    }

    method UpX()
      modifies this`cropper
      ensures cropper == Apply(Command.UpX, old(cropper))
    {
      cropper := CropperPosition(cropper.x1 + 10.0, cropper.y1, cropper.x2 + 10.0, cropper.y2);
    }

    method DownY()
      modifies this`cropper
      ensures cropper == Apply(Command.DownY, old(cropper))
    {
      cropper := CropperPosition(cropper.x1, cropper.y1 - 10.0, cropper.x2, cropper.y2 - 10.0);
    }

    method UpY()
      modifies this`cropper
      ensures cropper == Apply(Command.UpY, old(cropper))
    {
      cropper := CropperPosition(cropper.x1, cropper.y1 + 10.0, cropper.x2, cropper.y2 + 10.0);
    }

    method ZoomIn()
      modifies this`cropper
      ensures cropper == Apply(Command.ZoomIn, old(cropper))
    {
      cropper := CropperPosition(cropper.x1, cropper.y1, cropper.x2 * 1.05, cropper.y2 * 1.05);
    }

    method ZoomOut()
      modifies this`cropper
      ensures cropper == Apply(Command.ZoomOut, old(cropper))
    {
      cropper := CropperPosition(cropper.x1, cropper.y1, cropper.x2 * 0.95, cropper.y2 * 0.95);
    }

    /** `validatePhoto`: `payload` is the body sent to the validation
        endpoint and `response` the endpoint's answer, `None` when the request
        fails (the subscription has no error handler, so nothing changes). */
    method ValidatePhoto(croppedImage: string, response: Option<string>) returns (payload: string)
      modifies this`validatorStatus, this`isSkipValidator
      ensures payload == StripHeader(croppedImage)
      ensures response.Some? ==> validatorStatus == response.value && !isSkipValidator
      ensures response.None? ==>
        validatorStatus == old(validatorStatus) && isSkipValidator == old(isSkipValidator)
    {
      payload := JsString.Substring(croppedImage, 22, |croppedImage|);
      match response
      case Some(res) =>
        validatorStatus := res;
        isSkipValidator := false;
      case None =>
    }
  }
}
