# Crop rectangle logic of the Face-crop avatar capture

This project is a Dafny model of the small piece of local logic in the Face-crop
Angular front end: the crop rectangle (`CropperPosition {x1, y1, x2, y2}`) shown by
the photo dialog (`DialogTakePhotoComponent`) and by the avatar component
(`AvatarComponent`). The modelled behaviour covers:

- how the saliency cropper's suggestion (`topCrop {x, y, width, height}`) becomes the
  rectangle;
- the fallback used when no rectangle has been computed;
- how the detected faces become boost regions and the face count;
- the keyboard adjuster, which moves and zooms the rectangle once keyboard editing has
  been switched on;
- the header stripped from the image before it is sent for validation.

Modules:

- `CropRect` (crop_rect.dfy) covers the rectangle, the six commands
  `UpX`/`DownX`/`UpY`/`DownY`/`ZoomIn`/`ZoomOut` as a pure `Apply`, and `Run` over
  command sequences. The lemmas show that moves cancel, that zooming drifts, and that
  zooms never move the top-left corner.
- `JsString` (js_string.dfy) covers JavaScript `substring` with its index clamping.
- `DialogTakePhoto` (dialog_take_photo.dfy) covers the key map and the adjuster as a
  state machine (`Next`, `Trace`), with lemmas over event sequences. It also holds the
  boost list, the dialog's rectangle (offset −50), the validation payload, and the class
  `DialogTakePhotoComponent`. The class's methods replace the `cropper` field step by
  step and are proved against `Apply` and `Next`.
- `Avatar` (avatar.dfy) covers the avatar's rectangle (no offset) and the class
  `AvatarComponent`.

Coordinates are exact `real`s. Face rectangles from the detector are integer boxes.
The detector's faces, the saliency cropper's `topCrop` and the validation endpoint's
answer are parameters of the methods that receive them.

Where the design description of the system and the code differ, the model follows the
code:

- `analyze` ignores the face it is given. The vertical position is `topCrop.y` alone,
  with no averaging with the face's `y`.
- The dialog subtracts a fixed 50 from both x coordinates, and a step is 10.
- When no face is found, `handleImage` does not touch `currentCropper`. So
  `cropperReady` shows the default rectangle `{0, 0, 35, 45}` only if no crop was ever
  computed; otherwise it shows the last computed one.
- Nothing falls back on a zero-area suggestion.
- The arrow keys move the rectangle in the arrow's screen direction: `ArrowUp` runs
  `DownY`, which decreases y. The model keeps this mapping as written.

`KEY_CODE` (from `src/app/constant.ts`) is not part of this model. The key codes are
taken to be the standard `KeyboardEvent.code` names `ArrowUp`, `ArrowDown`,
`ArrowRight`, `ArrowLeft`, `Equal` and `Minus`.

## Model

| member | source | states |
|---|---|---|
| `CropRect.Shifted` | src/app/dialog-take-photo/dialog-take-photo.component.ts:246-280 | a move displaces the top-left corner by (dx, dy) and keeps width and height |
| `CropRect.Apply` | src/app/dialog-take-photo/dialog-take-photo.component.ts:246-298 | a translate command moves exactly one axis by 10 and keeps the size; a zoom keeps x1, y1 and multiplies x2, y2 by 1.05 or 0.95 |
| `CropRect.Opposite` | src/app/dialog-take-photo/dialog-take-photo.component.ts:246-280 | UpX/DownX and UpY/DownY are opposite moves with negated displacement |
| `CropRect.OppositeCancels` | src/app/dialog-take-photo/dialog-take-photo.component.ts:246-280 | a move followed by its opposite restores the rectangle |
| `CropRect.ZoomInOutDrift` | src/app/dialog-take-photo/dialog-take-photo.component.ts:282-298 | zoomIn then zoomOut (either order) scales x2, y2 by 0.9975; this is the identity iff x2 = y2 = 0 |
| `CropRect.ZoomAfterMoveDiffers` | src/app/dialog-take-photo/dialog-take-photo.component.ts:255-289 | moving right then zooming in is not the same as zooming then moving: x2 differs by 0.5 |
| `CropRect.RunTopLeft` | src/app/dialog-take-photo/dialog-take-photo.component.ts:246-298 | after any command sequence, the top-left corner is displaced by the sum of the translations alone |
| `CropRect.RunTranslations` | src/app/dialog-take-photo/dialog-take-photo.component.ts:246-280 | a sequence of moves is one translation by the summed displacement, so the size is kept |
| `CropRect.RunAppend` | src/app/dialog-take-photo/dialog-take-photo.component.ts:246-298 | running two command sequences in turn equals running their concatenation |
| `CropRect.RunRepeat` | src/app/dialog-take-photo/dialog-take-photo.component.ts:246-280 | n presses of one move shift the rectangle by n steps |
| `CropRect.BackAndForth` | src/app/dialog-take-photo/dialog-take-photo.component.ts:246-280 | n moves one way followed by n moves back restore the rectangle |
| `CropRect.Corners` | src/app/avatar/avatar.component.ts:100-105 | the corner rectangle of a suggestion has its origin and its width and height |
| `CropRect.CornersExtentInverse` | src/app/avatar/avatar.component.ts:100-105 | corner form and origin-and-size form convert into each other without loss |
| `JsString.Clamp` | src/app/dialog-take-photo/dialog-take-photo.component.ts:309 | a substring index is clamped into [0, length] |
| `JsString.Substring` | src/app/dialog-take-photo/dialog-take-photo.component.ts:309 | an in-range substring is the slice; an out-of-range start and end give the empty string; the result is never longer than the input |
| `JsString.SubstringSymmetric` | src/app/dialog-take-photo/dialog-take-photo.component.ts:309 | swapping start and end gives the same substring |
| `JsString.SubstringSuffix` | src/app/dialog-take-photo/dialog-take-photo.component.ts:309 | cutting at the length of a prefix to the end gives back the rest |
| `DialogTakePhoto.KeyCommand` | src/app/dialog-take-photo/dialog-take-photo.component.ts:220-243 | a key triggers a command iff it is one of the six mapped codes; any other code triggers nothing |
| `DialogTakePhoto.KeyCommandBijective` | src/app/dialog-take-photo/dialog-take-photo.component.ts:220-243 | each of the six commands is triggered by exactly one key |
| `DialogTakePhoto.KeyEffects` | src/app/dialog-take-photo/dialog-take-photo.component.ts:220-298 | ArrowUp moves y by −10, ArrowDown by +10, ArrowRight moves x by +10, ArrowLeft by −10, Equal zooms by 1.05, Minus by 0.95 |
| `DialogTakePhoto.Next` | src/app/dialog-take-photo/dialog-take-photo.component.ts:206-244 | the edit flag is sticky; enabling changes only the flag; keys never change the flag, do nothing while it is off, an unmapped key does nothing, and a mapped key while it is on applies its command to the rectangle |
| `DialogTakePhoto.EditStaysEnabled` | src/app/dialog-take-photo/dialog-take-photo.component.ts:206-212 | once keyboard editing is on, no sequence of events switches it off |
| `DialogTakePhoto.KeysIgnoredWhileDisabled` | src/app/dialog-take-photo/dialog-take-photo.component.ts:210-212 | while editing is off, any sequence of keys leaves the rectangle unchanged |
| `DialogTakePhoto.EnabledRunsCommands` | src/app/dialog-take-photo/dialog-take-photo.component.ts:210-243 | while editing is on, an event sequence applies exactly the mapped commands of its keys, in order |
| `DialogTakePhoto.BoostsForUnique` | src/app/dialog-take-photo/dialog-take-photo.component.ts:135-145 | the boost list is determined by the faces |
| `DialogTakePhoto.BuildBoost` | src/app/dialog-take-photo/dialog-take-photo.component.ts:135-145 | one boost region per face, in order, with the face's x, y, width, height and weight 1.0 |
| `DialogTakePhoto.DialogRect` | src/app/dialog-take-photo/dialog-take-photo.component.ts:165-170 | x1 = topCrop.x − 50, y1 = topCrop.y, and the rectangle has topCrop's width and height: the suggestion moved 50 to the left |
| `DialogTakePhoto.DialogRectExample` | src/app/dialog-take-photo/dialog-take-photo.component.ts:165-170 | the suggestion (10, 20, 300 × 400) gives the rectangle {−40, 20, 260, 420} |
| `DialogTakePhoto.StripHeader` | src/app/dialog-take-photo/dialog-take-photo.component.ts:309 | the first 22 characters are removed; a string shorter than 22 gives the empty string |
| `DialogTakePhoto.StripPngHeader` | src/app/dialog-take-photo/dialog-take-photo.component.ts:309 | 22 is the length of `data:image/png;base64,`, so stripping a PNG data URL leaves exactly its payload |
| `DialogTakePhoto.DialogTakePhotoComponent.constructor` | src/app/dialog-take-photo/dialog-take-photo.component.ts:18-53 | initial state: zero rectangle, no computed crop, keyboard editing off, no faces, options 35 × 45 with no boost |
| `DialogTakePhoto.DialogTakePhotoComponent.HandleImage` | src/app/dialog-take-photo/dialog-take-photo.component.ts:133-157 | with faces: face count, one boost per face and a crop from the suggestion, other options and the message untouched; with none: count 0, the "No face in camera!" message, boost and crop untouched |
| `DialogTakePhoto.DialogTakePhotoComponent.Analyze` | src/app/dialog-take-photo/dialog-take-photo.component.ts:161-173 | the computed crop is the dialog rectangle of the suggestion, whatever the face |
| `DialogTakePhoto.DialogTakePhotoComponent.CropperReady` | src/app/dialog-take-photo/dialog-take-photo.component.ts:175-187 | the shown rectangle becomes the computed crop, or {0, 0, 35, 45} if none was computed |
| `DialogTakePhoto.DialogTakePhotoComponent.EnableEditCropByKeyBoard` | src/app/dialog-take-photo/dialog-take-photo.component.ts:206-208 | performs the adjuster's enable transition: the flag becomes true and the rectangle stays |
| `DialogTakePhoto.DialogTakePhotoComponent.KeyEvent` | src/app/dialog-take-photo/dialog-take-photo.component.ts:210-244 | performs the adjuster's key transition: the sequential key tests change the rectangle exactly as `Next` says |
| `DialogTakePhoto.DialogTakePhotoComponent.DownX` | src/app/dialog-take-photo/dialog-take-photo.component.ts:246-253 | the rectangle becomes `Apply(DownX, ·)` of the previous one |
| `DialogTakePhoto.DialogTakePhotoComponent.UpX` | src/app/dialog-take-photo/dialog-take-photo.component.ts:255-262 | the rectangle becomes `Apply(UpX, ·)` of the previous one |
| `DialogTakePhoto.DialogTakePhotoComponent.DownY` | src/app/dialog-take-photo/dialog-take-photo.component.ts:264-271 | the rectangle becomes `Apply(DownY, ·)` of the previous one |
| `DialogTakePhoto.DialogTakePhotoComponent.UpY` | src/app/dialog-take-photo/dialog-take-photo.component.ts:273-280 | the rectangle becomes `Apply(UpY, ·)` of the previous one |
| `DialogTakePhoto.DialogTakePhotoComponent.ZoomIn` | src/app/dialog-take-photo/dialog-take-photo.component.ts:282-289 | the rectangle becomes `Apply(ZoomIn, ·)` of the previous one |
| `DialogTakePhoto.DialogTakePhotoComponent.ZoomOut` | src/app/dialog-take-photo/dialog-take-photo.component.ts:291-298 | the rectangle becomes `Apply(ZoomOut, ·)` of the previous one |
| `DialogTakePhoto.DialogTakePhotoComponent.ValidatePhoto` | src/app/dialog-take-photo/dialog-take-photo.component.ts:308-314 | the body sent is the image without its 22-character header; a received answer is stored and the validator is no longer skipped; a failed request changes neither field |
| `Avatar.AvatarRect` | src/app/avatar/avatar.component.ts:100-105 | the corner form of the suggestion (`Corners`): x1 = topCrop.x, y1 = topCrop.y with no offset; x2 = x + width, y2 = y + height; converting back gives the suggestion |
| `Avatar.AvatarComponent.constructor` | src/app/avatar/avatar.component.ts:18-36 | initial state: zero rectangle, no computed crop, webcam shown, no errors |
| `Avatar.AvatarComponent.ToggleWebcam` | src/app/avatar/avatar.component.ts:57-59 | the flag is negated, so two calls restore it |
| `Avatar.AvatarComponent.HandleInitError` | src/app/avatar/avatar.component.ts:61-63 | the error is appended: length grows by one, earlier entries unchanged |
| `Avatar.AvatarComponent.Analyze` | src/app/avatar/avatar.component.ts:95-107 | the computed crop is the avatar rectangle of the suggestion |
| `Avatar.AvatarComponent.CropperReady` | src/app/avatar/avatar.component.ts:127-137 | the shown rectangle becomes the computed crop, or {0, 0, 0, 0} if none was computed |

## Left out

- Face and eye detection (`cv.imread`, `cvtColor`, `CascadeClassifier.detectMultiScale`,
  classifier loading): foreign WASM calls. Their result is the `faces` parameter of
  `HandleImage`.
- `smartcrop.crop`: a third-party saliency algorithm. Its `topCrop` is a parameter of
  `HandleImage` and `Analyze`. The avatar's `run`/`handleImage` only build constant
  options (400 × 600) and call `analyze`, so they are not modelled separately.
- Asynchrony: the image `onload`, the smartcrop promise, the `setTimeout` in the dialog's
  `cropperReady` and the HTTP subscription all run synchronously in the model. Races
  between overlapping captures are not modelled.
- The HTTP call of `validatePhoto` (`OpenCvService.validatorImage`): the request body is
  the returned payload and the response is a parameter (`None` for a failed request).
- DOM and UI: the `keydown` listener that `keyEvent` registers, the snackbar, dialog
  close, `imageCropped`, webcam device enumeration, and the rxjs subjects (`trigger`,
  `nextWebcam`, `classifiersLoaded`).
- The dialog's `handleInitError`, `toggleWebcam` and `triggerSnapshot`: the first two are
  the same as the avatar component's, which are modelled. The third emits a trigger event
  and then calls `toggleWebcam`, so each snapshot in the dialog hides the webcam; the
  dialog's `showWebcam` and `errors` fields are not modelled.
- JsString.Substring (and so StripHeader) counts indices in Unicode scalar values, while
  JavaScript counts UTF-16 code units. The two differ only on characters outside the Basic
  Multilingual Plane, so not on the ASCII base64 data URLs `validatePhoto` receives.
- IEEE-754 rounding: coordinates and zoom factors are exact reals, so the drift of
  zoomIn/zoomOut is exactly 0.9975.
- `src/app/core/http/open-cv.service.ts` and `src/app/app.module.ts`: framework wiring
  only.
