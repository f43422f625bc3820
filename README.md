# TemplateApp core, modelled in Dafny

TemplateApp is an iOS app template written in SwiftUI. It has:

- a passport and visa photo wizard: upload or capture, choose a format, adjust the crop, export;
- sign-in through the Cognito hosted UI or by e-mail, with a stored session;
- a Core Data and CloudKit store of sample records, managed from the settings screen;
- analytics, push notifications, a rate prompt and a placeholder AI rewrite service;
- a Python script that copies the manifest's ids into the Xcode project.

This project models the rules the app decides for itself. Each core source file becomes one module:

- Pure computations become datatypes, functions and lemmas. Examples: the export pixel size, the crop clamps and frames, the JWT claim decoding, hex colours, the e-mail checks.
- Objects whose state the source updates become classes whose methods state the new state. Examples: `AppState`, `CloudSyncManager`, the wizard's step machine, the pickers, the gesture handlers, the rate-prompt throttle, the session slot.
- Loops become methods with loop invariants, proved against a specification function, for example the migration between stores.

The clock, UUIDs, random choice, the network, the browser, the decoders and the persistent stores are all parameters. Asynchronous sign-in, password-reset and store work is split into the method that starts it and the method that delivers its result. The photo step's two tasks, rendering the preview and handing it to the wizard, are each collapsed into one method that ends with `isPreparingPhoto` cleared.

Shared modules:

- `Wrappers`: Option and Result.
- `Strings`: trimming, `split(separator:)`, `firstIndex(of:)`.
- `Geometry`: Core Graphics values over real numbers, and Swift's `round`.
- `Sorting`: `filter`, and `sorted(by:)` under a strict weak order.
- `Bytes`: hex spelling of bytes.

All files are verified together: `dafny verify *.dfy`.

Two ways in which the model follows the code where the app's own description differs:

- `AppManifest` is missing several fields that the settings and welcome screens read: the feature flags `cloudSync`, `share`, `errorBanner`, `ratePrompt` and `imageCapture`, and the `legal` and `share` sections. They are ordinary manifest fields here.
- `APIError` is declared in three incompatible shapes across the API files. It is the one error `ResponseError(message?)` here.

## Model

| member | source | states |
|---|---|---|
| PhotoPresets.PhotoPreset.AspectRatio | TemplateApp/TemplateApp/Home/PhotoPreset.swift:18-21 | width over height in millimetres, 1 when the height is zero; positive when both sides are |
| PhotoPresets.AspectRatioScaleInvariant | TemplateApp/TemplateApp/Home/PhotoPreset.swift:18-21 | scaling both sides by the same positive factor leaves the ratio unchanged |
| GuideOverlay.PreviewFrame | TemplateApp/TemplateApp/Home/GuideSilhouetteOverlay.swift:46-61 | the frame is 3:4, centred in the width and in the safe area, fits the safe area and touches it on one side |
| GuideOverlay.EditSilhouette | TemplateApp/TemplateApp/Home/GuideSilhouetteOverlay.swift:17-29 | the edit-mode silhouette is the frame less 5% of its width and height on each side |
| GuideOverlay.PreviewSilhouette | TemplateApp/TemplateApp/Home/GuideSilhouetteOverlay.swift:7-13 | the preview silhouette spans 3% to 81% of the frame's height, centred horizontally, so it stays inside the frame |
| CustomSize.ReplaceCommas | TemplateApp/TemplateApp/Home/CustomSizeView.swift:67-68 | every comma becomes a dot and nothing else changes |
| CustomSize.ToMillimetres | TemplateApp/TemplateApp/Home/CustomSizeView.swift:79-86 | millimetres pass through; inches are multiplied by 25.4 |
| CustomSize.Validate | TemplateApp/TemplateApp/Home/CustomSizeView.swift:65-97 | a preset exists exactly when width, height and DPI parse and are positive; it is the passport-typed "custom" preset with the converted sizes |
| CustomSize.CustomAspectRatio | TemplateApp/TemplateApp/Home/CustomSizeView.swift:76-97 | the unit never changes the custom preset's aspect ratio: it is the typed width over the typed height |
| CustomSize.CustomSizeState.constructor | TemplateApp/TemplateApp/Home/CustomSizeView.swift:20-24 | empty sizes, millimetres, DPI "300", no alert |
| CustomSize.CustomSizeState.Submit | TemplateApp/TemplateApp/Home/CustomSizeView.swift:65-101 | an invalid entry raises the alert only; a valid one is submitted once and the sheet dismissed |
| ChooseFormat.VisaPresetsSpec | TemplateApp/TemplateApp/Home/ChooseFormatView.swift:88-92 | the visa section `VisaPresets` holds exactly the visa presets, with their multiplicities, sorted by country |
| ChooseFormat.PassportPresetsSpec | TemplateApp/TemplateApp/Home/ChooseFormatView.swift:94-98 | the passport section `PassportPresets` holds exactly the passport presets, with their multiplicities, sorted by country |
| ChooseFormat.SectionsPartitionLibrary | TemplateApp/TemplateApp/Home/ChooseFormatView.swift:41-46 | the two sections together are a permutation of the library |
| ChooseFormat.ChooseFormatState.constructor | TemplateApp/TemplateApp/Home/ChooseFormatView.swift:4-7 | the custom-size sheet starts closed and nothing is selected |
| ChooseFormat.ChooseFormatState.SelectPreset | TemplateApp/TemplateApp/Home/ChooseFormatView.swift:54-56 | a tapped preset is passed on, once |
| ChooseFormat.ChooseFormatState.OpenCustomSize | TemplateApp/TemplateApp/Home/ChooseFormatView.swift:106-107 | the custom-size sheet opens |
| ChooseFormat.ChooseFormatState.CustomSizeSubmitted | TemplateApp/TemplateApp/Home/ChooseFormatView.swift:21-24 | a submitted custom size closes the sheet and is passed on unchanged |
| EditAdjust.ClampScale | TemplateApp/TemplateApp/Home/EditAdjustView.swift:175-177 | the pinch factor is kept between 0.5 and 3, unchanged when already inside |
| EditAdjust.DragLimitAllowsOverhang | TemplateApp/TemplateApp/Home/EditAdjustView.swift:180-185 | for a non-negative frame, `DragLimit` is at least half the scaled image's overhang plus 1.5 frames and at least 1.5 frames, and exactly 1.5 frames when the image does not overhang |
| EditAdjust.ClampOffsetBounds | TemplateApp/TemplateApp/Home/EditAdjustView.swift:179-190 | `ClampOffset` keeps the offset within the drag limit (overhang beyond the frame plus 1.5 frames) on each axis, and an offset inside it is kept |
| EditAdjust.ClampOffsetIdempotent | TemplateApp/TemplateApp/Home/EditAdjustView.swift:179-190 | clamping a clamped offset again with `ClampOffset` changes nothing |
| EditAdjust.FrameRect | TemplateApp/TemplateApp/Home/EditAdjustView.swift:192-211 | the crop frame has the preset's aspect ratio, is centred, fits 90% of the width and 80% of the height and reaches one of those limits |
| EditAdjust.FrameRectFits | TemplateApp/TemplateApp/Home/EditAdjustView.swift:198-206 | after shrinking to the height limit the frame is no wider than the width limit, so the second correction never fires |
| EditAdjust.BaseScale | TemplateApp/TemplateApp/Home/EditAdjustView.swift:213-217 | the base scale is the larger of the two axis ratios |
| EditAdjust.BaseScaleCovers | TemplateApp/TemplateApp/Home/EditAdjustView.swift:213-217 | at the base scale the image covers the frame on both axes |
| EditAdjust.EditAdjustState.constructor | TemplateApp/TemplateApp/Home/EditAdjustView.swift:9-14 | unit scales, zero offsets, an empty frame |
| EditAdjust.EditAdjustState.UpdateCachedValues | TemplateApp/TemplateApp/Home/EditAdjustView.swift:162-173 | a base scale that moved by more than 0.0001 is adopted and both offsets re-clamped; the frame is always adopted |
| EditAdjust.EditAdjustState.DragChanged | TemplateApp/TemplateApp/Home/EditAdjustView.swift:78-85 | a drag moves the settled offset by the translation, clamped |
| EditAdjust.EditAdjustState.DragEnded | TemplateApp/TemplateApp/Home/EditAdjustView.swift:86-88 | the end of a drag settles the offset |
| EditAdjust.EditAdjustState.MagnificationChanged | TemplateApp/TemplateApp/Home/EditAdjustView.swift:90-96 | a pinch scales the settled factor, clamps it and re-clamps the settled offset at the new scale |
| EditAdjust.EditAdjustState.MagnificationEnded | TemplateApp/TemplateApp/Home/EditAdjustView.swift:97-101 | the end of a pinch settles the factor and the re-clamped offset |
| EditAdjust.EditAdjustState.Next | TemplateApp/TemplateApp/Home/EditAdjustView.swift:54-62 | the crop passed on has the cached frame, the current offset and a scale between half and three times the base scale |
| PhotoFlow.PreviousStep | TemplateApp/TemplateApp/Home/PhotoFlowView.swift:136-149 | there is no step before the first; otherwise the step before is exactly one position earlier |
| PhotoFlow.PhotoFlowState.constructor | TemplateApp/TemplateApp/Home/PhotoFlowView.swift:16-24 | the wizard starts at the upload step unless an initial image is given, with nothing chosen yet |
| PhotoFlow.PhotoFlowState.StepTitle | TemplateApp/TemplateApp/Home/PhotoFlowView.swift:158-165 | the upload step shows the title of the upload screen's mode; the format, edit and export steps show exactly "Format", "Edit" and "Export" |
| PhotoFlow.PhotoFlowState.CurrentScreen | TemplateApp/TemplateApp/Home/PhotoFlowView.swift:27-82 | the edit and export views are shown exactly when the image, preset and crop they need are present, and they receive those values |
| PhotoFlow.PhotoFlowState.PhotoConfirmed | TemplateApp/TemplateApp/Home/PhotoFlowView.swift:30-33 | a confirmed photo is kept and the wizard moves to the format step |
| PhotoFlow.PhotoFlowState.UploadModeChanged | TemplateApp/TemplateApp/Home/PhotoFlowView.swift:33-39 | the upload mode sets the title "New Photo" or "Review" |
| PhotoFlow.PhotoFlowState.PresetSelected | TemplateApp/TemplateApp/Home/PhotoFlowView.swift:41-48 | a chosen preset is kept and the wizard moves to the edit step |
| PhotoFlow.PhotoFlowState.EditBack | TemplateApp/TemplateApp/Home/PhotoFlowView.swift:54 | the edit step's Back returns to the format step |
| PhotoFlow.PhotoFlowState.EditNext | TemplateApp/TemplateApp/Home/PhotoFlowView.swift:55-58 | the crop is kept and the wizard moves to the export step |
| PhotoFlow.PhotoFlowState.ExportBack | TemplateApp/TemplateApp/Home/PhotoFlowView.swift:72 | the export step's Back returns to the edit step |
| PhotoFlow.PhotoFlowState.ResetFlow | TemplateApp/TemplateApp/Home/PhotoFlowView.swift:129-134 | back to the upload step with image, preset and crop dropped |
| PhotoFlow.PhotoFlowState.HandleFlowCompletion | TemplateApp/TemplateApp/Home/PhotoFlowView.swift:124-127 | the flow is reset and then dismissed once |
| PhotoFlow.PhotoFlowState.GoBack | TemplateApp/TemplateApp/Home/PhotoFlowView.swift:136-149 | the first step dismisses the wizard; every other step goes one step back |
| PhotoFlow.ExportPixelSize | TemplateApp/TemplateApp/Home/PhotoFlowView.swift:339-360 | both sides are at least one pixel; the United States formats are squares of twice the DPI; other presets round millimetres over 25.4 times DPI |
| PhotoFlow.ExportPixelSizeNearest | TemplateApp/TemplateApp/Home/PhotoFlowView.swift:354-358 | away from the United States formats each side is within half a pixel of its exact size |
| PhotoFlow.USFormatsSquare | TemplateApp/TemplateApp/Home/PhotoFlowView.swift:340-353 | the United States formats are square whatever millimetre sizes the preset carries |
| PhotoFlow.Render | TemplateApp/TemplateApp/Home/PhotoFlowView.swift:337-421 | the exported image is at least one pixel each way and carries the preset's DPI; a US passport or visa preset gives a square of twice the DPI; any other preset whose exact size is at least half a pixel each way comes within half a pixel of it; the image and bytes are the encoder's |
| PhotoFlow.ExportAndSaveState.constructor | TemplateApp/TemplateApp/Home/PhotoFlowView.swift:174-181 | the export step starts without a result |
| PhotoFlow.ExportAndSaveState.GenerateExportIfNeeded | TemplateApp/TemplateApp/Home/PhotoFlowView.swift:295-303 | the result is rendered once, on first appearance; later appearances change nothing |
| UploadPhoto.AspectFillCovers | TemplateApp/TemplateApp/Home/UploadPhotoView.swift:339-363 | the preview draw rect `AspectFillRect` keeps the image's proportions, covers the 1200 x 1600 target, matches it on one axis and is centred on it |
| UploadPhoto.UploadPhotoState.constructor | TemplateApp/TemplateApp/Home/UploadPhotoView.swift:11-18 | the step starts choosing a source, with no images, no picker and no work in progress |
| UploadPhoto.UploadPhotoState.IsPresented | TemplateApp/TemplateApp/Home/UploadPhotoView.swift:317-320 | a picker's sheet is shown exactly when that picker is the active one |
| UploadPhoto.UploadPhotoState.SetPresented | TemplateApp/TemplateApp/Home/UploadPhotoView.swift:321-326 | presenting makes the picker active; dismissing clears it only when it is the active one |
| UploadPhoto.UploadPhotoState.Appear | TemplateApp/TemplateApp/Home/UploadPhotoView.swift:31-33 | appearing reports the current mode |
| UploadPhoto.UploadPhotoState.SetMode | TemplateApp/TemplateApp/Home/UploadPhotoView.swift:288-291 | the mode changes and the change is reported |
| UploadPhoto.UploadPhotoState.HandleImageSelection | TemplateApp/TemplateApp/Home/UploadPhotoView.swift:227-239 | a picked image and its rendered preview are kept and the step switches to preview; no image changes nothing |
| UploadPhoto.UploadPhotoState.Retake | TemplateApp/TemplateApp/Home/UploadPhotoView.swift:151-154 | Retake drops both images and returns to choosing a source |
| UploadPhoto.UploadPhotoState.CanUsePhoto | TemplateApp/TemplateApp/Home/UploadPhotoView.swift:181 | "Use Photo" is enabled exactly when there is a preview |
| UploadPhoto.UploadPhotoState.UsePhoto | TemplateApp/TemplateApp/Home/UploadPhotoView.swift:162-174 | the preview is written to the wizard's image and confirmed once; without a preview nothing happens |
| ImageCapture.Composer.constructor | TemplateApp/TemplateApp/Components/ImageCaptureTester.swift:8-16 | an empty note, no image, no error |
| ImageCapture.Composer.CanSave | TemplateApp/TemplateApp/Components/ImageCaptureTester.swift:187 | saving is enabled exactly when an image is selected |
| ImageCapture.Composer.SaveRecord | TemplateApp/TemplateApp/Components/ImageCaptureTester.swift:193-201 | without an image only the error message is set; with one exactly one record is requested from the note and image and the composer is cleared |
| ImageCapture.Composer.ResetComposer | TemplateApp/TemplateApp/Components/ImageCaptureTester.swift:203-207 | note, image and error are cleared |
| ImageCapture.Composer.ApplyPickedImage | TemplateApp/TemplateApp/Components/ImageCaptureTester.swift:209-216 | a cancelled picker changes nothing; a picked image is selected and the error cleared |
| ImageCapture.Composer.RemovePhoto | TemplateApp/TemplateApp/Components/ImageCaptureTester.swift:164-166 | the selected image is dropped |
| ImageCapture.DoubleTapZoom | TemplateApp/TemplateApp/Components/ImageCaptureTester.swift:297-299 | a double tap zooms to 1 exactly when zoomed past 1.1, and to 2 otherwise |
| ImageCapture.ZoomState.constructor | TemplateApp/TemplateApp/Components/ImageCaptureTester.swift:276-277 | zoom and last pinch factor start at 1 |
| ImageCapture.ZoomState.PinchChanged | TemplateApp/TemplateApp/Components/ImageCaptureTester.swift:286-290 | the zoom is multiplied by the change since the last update and kept within 1 to 5 |
| ImageCapture.ZoomState.PinchEnded | TemplateApp/TemplateApp/Components/ImageCaptureTester.swift:291-294 | the pinch factor restarts at 1 and the zoom, already at least 1, is kept |
| ImageCapture.ZoomState.DoubleTap | TemplateApp/TemplateApp/Components/ImageCaptureTester.swift:297-299 | the zoom becomes the double-tap toggle of the old zoom |
| RatePrompt.CanPromptAt | TemplateApp/TemplateApp/Components/RatePromptManager.swift:23-28 | a prompt is allowed when none was recorded, or exactly when more than 86400 seconds have passed since the last one |
| RatePrompt.PromptSuppressesForADay | TemplateApp/TemplateApp/Components/RatePromptManager.swift:7 | after a prompt every time up to a day later is refused, and the first second after the day is allowed |
| RatePrompt.RatePromptManager.constructor | TemplateApp/TemplateApp/Components/RatePromptManager.swift:4-9 | the manager starts from the stored last-prompt date |
| RatePrompt.RatePromptManager.RequestReviewIfAllowed | TemplateApp/TemplateApp/Components/RatePromptManager.swift:11-21 | the review is requested and the date recorded exactly when prompting is allowed and a foreground-active scene exists; otherwise nothing changes |
| RatePrompt.RatePromptManager.UpdateLastPrompt | TemplateApp/TemplateApp/Components/RatePromptManager.swift:30-32 | the last-prompt date becomes the given time |
| EmailValidator.IsValidEmail | TemplateApp/TemplateApp/Auth/EmailSignUpValidator.swift:4-12 | after trimming, an address is valid exactly when some '@' other than the first character has no '@' before it and a '.' after it |
| EmailValidator.FirstAtUnique | TemplateApp/TemplateApp/Auth/EmailSignUpValidator.swift:6 | the first '@' is the only '@' with none before it |
| EmailValidator.IsFormValid | TemplateApp/TemplateApp/Auth/EmailSignUpValidator.swift:14-19 | the form is valid exactly when the address is valid and the two passwords are equal and not empty |
| EmailValidator.AcceptedShape | TemplateApp/TemplateApp/Auth/EmailSignUpValidator.swift:4-12 | any trimmed local@domain with no '@' in the local part and a '.' in the domain is accepted |
| EmailValidator.NoDotInDomainRefused | TemplateApp/TemplateApp/Auth/EmailSignUpValidator.swift:10-11 | without a '.' after the first '@' an address is refused |
| EmailValidator.NoAtRefused | TemplateApp/TemplateApp/Auth/EmailSignUpValidator.swift:6-9 | an address without '@' is refused |
| EmailValidator.EmailWithoutAt | TemplateApp/TemplateAppTests/EmailSignUpValidatorTests.swift:6 | "userexample.com" is refused |
| EmailValidator.EmailWithoutDot | TemplateApp/TemplateAppTests/EmailSignUpValidatorTests.swift:7 | "user@examplecom" is refused |
| EmailValidator.EmailAccepted | TemplateApp/TemplateAppTests/EmailSignUpValidatorTests.swift:8 | "user@example.com" is accepted |
| EmailValidator.FormMismatchRefused | TemplateApp/TemplateAppTests/EmailSignUpValidatorTests.swift:12-18 | different passwords make the form invalid |
| EmailValidator.FormMatchAccepted | TemplateApp/TemplateAppTests/EmailSignUpValidatorTests.swift:20-26 | equal passwords with a valid address make the form valid |
| ProfileModels.TrimmedOrNil | TemplateApp/TemplateApp/API/ProfileModels.swift:19-22 | nothing exactly when the string is all whitespace; otherwise the trimmed string, which starts and ends with non-whitespace |
| ProfileModels.TrimmedOrNilIdempotent | TemplateApp/TemplateApp/API/ProfileModels.swift:19-22 | a present result is its own trimmedOrNil |
| HostedUI.PadBase64 | TemplateApp/TemplateApp/Auth/HostedUILoginController.swift:220-224 | the body is extended with '=' only, to the next multiple of four characters, by fewer than four |
| HostedUI.PadBase64Aligned | TemplateApp/TemplateApp/Auth/HostedUILoginController.swift:221-222 | a body whose length is a multiple of four is not padded |
| HostedUI.DecodeJWTClaims | TemplateApp/TemplateApp/Auth/HostedUILoginController.swift:217-228 | fewer than two pieces, a body the base64 decoder refuses, or JSON that is not an object give no claims; JSON that does not parse throws claimsUnreadable, and nothing else fails; a body whose JSON is an object gives exactly that object's claims |
| HostedUI.TokenBodyIsSecondPiece | TemplateApp/TemplateApp/Auth/HostedUILoginController.swift:218-220 | in header.body.signature the claims are read from the body, however many dots lead the token |
| HostedUI.ClaimsOfWellFormedToken | TemplateApp/TemplateApp/Auth/HostedUILoginController.swift:217-228 | a token header.body.signature, after any leading dots, whose body decodes to a JSON object yields exactly that object's claims |
| HostedUI.LeadingDotsIgnored | TemplateApp/TemplateApp/Auth/HostedUILoginController.swift:218 | leading dots produce no pieces |
| HostedUI.SinglePieceHasNoClaims | TemplateApp/TemplateApp/Auth/HostedUILoginController.swift:219 | a token without a dot has no claims |
| HostedUI.TextClaim | TemplateApp/TemplateApp/Auth/HostedUILoginController.swift:128-131 | a claim is read exactly when it is present and a string |
| HostedUI.UserFromClaims | TemplateApp/TemplateApp/Auth/HostedUILoginController.swift:198-203 | the user's subject, email and names are the string claims, with the fresh identifier standing in for a missing subject |
| HostedUI.NoClaimsAnonymousUser | TemplateApp/TemplateApp/Auth/HostedUILoginController.swift:198-203 | without claims the user has only the fallback subject |
| HostedUI.ProvidersDistinguished | TemplateApp/TemplateApp/Auth/HostedUILoginController.swift:10-22 | the two providers differ in both `DisplayName` and `HostedUIIdentifier` |
| HostedUI.AuthorizePage | TemplateApp/TemplateApp/Auth/HostedUILoginController.swift:40-62 | sign-in fails with invalidConfiguration exactly when client id, scheme, region or a non-empty domain is missing or the URL does not parse; otherwise the authorize page carries the five query items in order |
| HostedUI.LogoutPage | TemplateApp/TemplateApp/Auth/HostedUILoginController.swift:75-93 | logout needs domain, client id and scheme and a parsable URL; its page carries client_id and logout_uri |
| HostedUI.LogoutMatchesSignIn | TemplateApp/TemplateApp/Auth/HostedUILoginController.swift:48-93 | logout returns to the same redirect and scheme as sign-in, whose configuration suffices for it |
| HostedUI.PlaceholderCannotSignIn | TemplateApp/TemplateApp/Config/AppManifest.swift:60-72 | the placeholder manifest fails both sign-in and logout with invalidConfiguration |
| HostedUI.SessionFromTokens | TemplateApp/TemplateApp/Auth/HostedUILoginController.swift:196-211 | a session carries the payload's tokens and expiry now plus expires_in, and fails exactly when the claims cannot be read |
| HostedUI.RefreshSession | TemplateApp/TemplateApp/Auth/HostedUILoginController.swift:98-141 | refresh needs domain and client id; a transport error is networkFailed and a non-HTTP reply transient; a non-200 status is authFailed exactly when `IsInvalidGrant` holds of the error body and transient otherwise; a 200 reply without readable tokens is payloadUnreadable, and one with tokens is exactly the session built from them, keeping the old refresh token when none is returned |
| HostedUI.RefreshKeepsARefreshToken | TemplateApp/TemplateApp/Auth/HostedUILoginController.swift:136-138 | a refresh that returns no refresh token keeps the one it was given, and the session is live exactly when expires_in is positive |
| HostedUI.ExchangedSession | TemplateApp/TemplateApp/Auth/HostedUILoginController.swift:174-211 | a missing code, a non-HTTP reply or a non-200 status fail with tokenExchangeFailed; a transport error is networkFailed; a 200 reply without readable tokens is payloadUnreadable, and one with tokens is exactly the session built from them with the reply's refresh token |
| HostedUI.BrowserResult | TemplateApp/TemplateApp/Auth/HostedUILoginController.swift:144-165 | a cancelled browser session fails cancelled and one without callback fails missingCallback |
| HostedUI.SignIn | TemplateApp/TemplateApp/Auth/HostedUILoginController.swift:39-72 | a configuration with no authorize page fails with invalidConfiguration; with one, a cancelled login and a missing callback fail with their errors, a failed exchange returns its error, and an exchanged session is returned exactly when it could be stored, else storage fails; a returned session is the exchange's and is in the slot; a failure leaves the slot as it was |
| Manifest.AppManifest.BaseURL | TemplateApp/TemplateApp/Config/AppManifest.swift:53-58 | the base URL is the staging URL in staging and the production URL in production |
| Manifest.AppManifest.IsDeveloperToolsEnabled | TemplateApp/TemplateApp/ContentView.swift:295-297 | developer tools show in every environment except production |
| Manifest.PlaceholderIsStaging | TemplateApp/TemplateApp/Config/AppManifest.swift:60-72 | the placeholder manifest targets staging, so its base URL is the staging one and developer tools are on, and it has no sign-in configuration |
| Manifest.Environment.RawValue | TemplateApp/TemplateApp/Config/AppManifest.swift:39-42 | the raw value "staging" or "prod", which the analytics payload carries, is non-empty |
| Manifest.EnvironmentsSpelledApart | TemplateApp/TemplateApp/Config/AppManifest.swift:39-42 | the two environments have different raw values, so a payload's environment names one of them |
| ColorHex.DigitValue | TemplateApp/TemplateApp/Config/Color+Hex.swift:13 | only hexadecimal digits, in either case, have a value, and it is below 16 |
| ColorHex.HexPrefix | TemplateApp/TemplateApp/Config/Color+Hex.swift:13 | the scanner reads the longest run of hex digits at the start and stops at the first other character |
| ColorHex.Expanded | TemplateApp/TemplateApp/Config/Color+Hex.swift:6-10 | a three-character string is followed by itself; any other length is left alone |
| ColorHex.ExpandShortForm | TemplateApp/TemplateApp/Config/Color+Hex.swift:6-10 | the expansion loop appends each original character once, giving the expanded string |
| ColorHex.Channels | TemplateApp/TemplateApp/Config/Color+Hex.swift:14-22 | six digits are opaque RGB, eight are ARGB with alpha first, every other length is opaque black; each channel is a byte |
| ColorHex.ColorFromHex | TemplateApp/TemplateApp/Config/Color+Hex.swift:4-31 | the colour is read from the string trimmed of non-alphanumerics at both ends and expanded |
| ColorHex.RgbRoundTrip | TemplateApp/TemplateApp/Config/Color+Hex.swift:16-17 | the six-digit spelling of r, g, b reads back as the opaque colour r, g, b |
| ColorHex.ArgbRoundTrip | TemplateApp/TemplateApp/Config/Color+Hex.swift:18-19 | the eight-digit spelling of a, r, g, b reads back as that colour |
| ColorHex.ShortFormRepeatsWhole | TemplateApp/TemplateApp/Config/Color+Hex.swift:6-10 | the short form abc reads as abcabc, not aabbcc |
| Bytes.HexDigit | TemplateApp/TemplateApp/Auth/PushManager.swift:53 | a value below 16 becomes one lowercase hexadecimal digit |
| Bytes.HexDigitValue | TemplateApp/TemplateApp/Auth/PushManager.swift:53 | exactly the lowercase hexadecimal digits have a value, and it spells back to the digit |
| Bytes.HexEncode | TemplateApp/TemplateApp/Auth/PushManager.swift:53 | the token has two lowercase hexadecimal digits per byte |
| Bytes.HexRoundTrip | TemplateApp/TemplateApp/Auth/PushManager.swift:53 | decoding a byte string's hex spelling gives the bytes back |
| Bytes.HexEncodeInjective | TemplateApp/TemplateApp/Auth/PushManager.swift:53 | different bytes never produce the same token |
| Push.PushManager.constructor | TemplateApp/TemplateApp/Auth/PushManager.swift:8-16 | the status starts not determined, with no token, no error, deep links off and no route handler |
| Push.PushManager.Configure | TemplateApp/TemplateApp/Auth/PushManager.swift:18-31 | the deep-link switch and route handler are stored and the status becomes the one the settings report |
| Push.PushManager.RequestAuthorizationAndRegister | TemplateApp/TemplateApp/Auth/PushManager.swift:33-44 | a grant sets authorized and registers once; a refusal sets denied; a thrown error is recorded and changes nothing else |
| Push.PushManager.HandleDeviceToken | TemplateApp/TemplateApp/Auth/PushManager.swift:52-58 | the token becomes the data's lowercase hex spelling and the error is cleared |
| Push.PushManager.HandleRegistrationError | TemplateApp/TemplateApp/Auth/PushManager.swift:60-64 | the error's description is recorded |
| Push.PushManager.HandleRemoteNotification | TemplateApp/TemplateApp/Auth/PushManager.swift:66-72 | the notification's string route is handed to the handler once when deep links are on and a handler is set; otherwise nothing is routed |
| Push.RouteOf | TemplateApp/TemplateApp/Auth/PushManager.swift:68-71 | a route exists exactly when deep links are on, a handler is set and the payload's route is a string, which it then is |
| Push.DeviceTokenSpelling | TemplateApp/TemplateApp/Auth/PushManager.swift:52-58 | the stored token is twice as long as the data and decodes back to it |
| Analytics.AnalyticsEvent.Name | TemplateApp/TemplateApp/Analytics/AnalyticsManager.swift:20-27 | every event but an error has a name: "app_open", or the screen's or button's name |
| Analytics.AnalyticsEvent.Message | TemplateApp/TemplateApp/Analytics/AnalyticsManager.swift:29-34 | exactly the error events carry a message |
| Analytics.EventFields | TemplateApp/TemplateApp/Analytics/AnalyticsManager.swift:5-34 | two events share a `Type` exactly when they are of the same kind; views and taps carry their names and errors their message and no name |
| Analytics.PayloadIdentifiesEvent | TemplateApp/TemplateApp/Analytics/AnalyticsManager.swift:76-84 | `PayloadFor` gives the manifest's app id and environment, and two events with the same payload are the same event |
| Analytics.Headers | TemplateApp/TemplateApp/Analytics/AnalyticsManager.swift:97-103 | the request is JSON with the app id, and carries a bearer Authorization header exactly when there is an access token |
| Analytics.AnalyticsManager.constructor | TemplateApp/TemplateApp/Analytics/AnalyticsManager.swift:40-48 | no manifest, no token, no app-open event sent, nothing sent |
| Analytics.AnalyticsManager.Track | TemplateApp/TemplateApp/Analytics/AnalyticsManager.swift:74-111 | without a manifest nothing is sent; otherwise exactly one POST to v1/analytics with the manifest's app id and environment and the event's type, name and message |
| Analytics.AnalyticsManager.ManifestEmitted | TemplateApp/TemplateApp/Analytics/AnalyticsManager.swift:51-60 | every published manifest is kept, and only the first is followed by a single app-open event |
| Analytics.AnalyticsManager.AuthStateEmitted | TemplateApp/TemplateApp/Analytics/AnalyticsManager.swift:62-71 | the access token is kept exactly while signed in, and is the session's |
| AIRewrite.Rewrite | AI/AIService.swift:47-97 | whitespace-only input, and only that, fails with emptyInput; otherwise the header, a blank line and the trimmed text, which shorter cuts to 160 characters plus an ellipsis when longer; `Transform` is this on the trimmed text |
| AIRewrite.RewriteSeesTrimmedText | AI/AIService.swift:48 | only the trimmed text matters: rewriting it gives the same result as rewriting the input |
| AIRewrite.RewriteKeepsText | AI/AIService.swift:64-96 | after the header and blank line the output is the trimmed text or its 160-character prefix with an ellipsis, never longer than the input's trimmed text, and shorter's output is bounded |
| AIRewrite.RewriteStyle.RawValue | AI/AIService.swift:6-11 | each style's raw value, "Clearer", "More formal" or "Shorter", which is also its id, is non-empty |
| AIRewrite.RewriteStyle.Description | AI/AIService.swift:13-22 | each style's hint is a non-empty sentence ending in a full stop |
| AIRewrite.StylesDistinguished | AI/AIService.swift:6-22 | two styles with the same raw value (id), or the same description, are the same style |
| AIRewrite.AIServiceError.ErrorDescription | AI/AIService.swift:29-40 | every error case has a description, a non-empty sentence ending in a full stop |
| AIRewrite.ErrorDescriptionsDistinct | AI/AIService.swift:33-40 | featureUnavailable and emptyInput are described differently |
| Auth.ExpiresAtDeadline | TemplateApp/TemplateApp/Auth/AuthSession.swift:11-13 | `IsExpired`: a session is already expired at its expiry instant and not one second before |
| Auth.StaysExpired | TemplateApp/TemplateApp/Auth/AuthSession.swift:11-13 | once expired, a session stays expired at every later time |
| Auth.ExpiryDependsOnlyOnDeadline | TemplateApp/TemplateApp/Auth/AuthSession.swift:11-13 | two sessions with the same deadline expire together, whatever their tokens, user or identifier |
| SessionStorage.AuthSessionStorage.constructor | TemplateApp/TemplateApp/Auth/AuthSessionStorage.swift:3-7 | the slot starts with whatever was persisted |
| SessionStorage.AuthSessionStorage.Load | TemplateApp/TemplateApp/Auth/AuthSessionStorage.swift:14-17 | nothing exactly when the slot is empty or undecodable; otherwise the stored session's tokens, expiry and user under a fresh identifier |
| SessionStorage.AuthSessionStorage.Store | TemplateApp/TemplateApp/Auth/AuthSessionStorage.swift:9-12 | a session that encodes overwrites the slot and loads back with the same content; an encoding failure throws and keeps the slot |
| SessionStorage.AuthSessionStorage.Clear | TemplateApp/TemplateApp/Auth/AuthSessionStorage.swift:19-21 | the slot is emptied and every later load gives nothing |
| Http.CleanPath | TemplateApp/TemplateApp/API/EmailAuthService.swift:19 | one leading "/" is dropped and nothing else changes |
| Http.CleanPathStripsOne | TemplateApp/TemplateApp/API/EmailAuthService.swift:19 | only the first of several leading slashes is dropped |
| EmailAuth.Build | TemplateApp/TemplateApp/API/EmailAuthService.swift:56-73 | the session copies the three tokens, expires expiresIn (3600 when missing) seconds from now, takes the user from the identity token's claims, and fails exactly when those claims cannot be read |
| EmailAuth.BuildDefaultsToAnHour | TemplateApp/TemplateApp/API/EmailAuthService.swift:70 | without a stated lifetime the session is live for 3599 seconds and expired at 3600 |
| EmailAuth.SendRequest | TemplateApp/TemplateApp/API/EmailAuthService.swift:18-24 | a JSON POST to the cleaned path |
| EmailAuth.Routes | TemplateApp/TemplateApp/API/EmailAuthService.swift:8-16 | sign-up and login post to v1/auth/email/signup and v1/auth/email/login |
| EmailAuth.SendResult | TemplateApp/TemplateApp/API/EmailAuthService.swift:26-33 | a non-HTTP response or a status of 400 or more fails with the body text or "Unknown error"; an unreadable body fails; otherwise the tokens build the session |
| EmailAuth.FailuresCarryAMessage | TemplateApp/TemplateApp/API/EmailAuthService.swift:27-30 | a refused request always carries a message, and a session only follows a status below 400 |
| UserProfiles.UserProfile.Id | TemplateApp/TemplateApp/API/UserProfileService.swift:13 | the identifier is the app id, a dash, then the user id |
| UserProfiles.UserProfile.DisplayName | TemplateApp/TemplateApp/API/UserProfileService.swift:15-23 | given and family name separated by a space; the given name alone; else the e-mail, else the user id |
| UserProfiles.FamilyNameAloneIgnored | TemplateApp/TemplateApp/API/UserProfileService.swift:22 | without a given name the family name never affects the display name |
| UserProfiles.IdDeterminesAppAndUser | TemplateApp/TemplateApp/API/UserProfileService.swift:13 | for app ids without a dash, equal identifiers mean the same app and user |
| UserProfiles.ProfileRequest | TemplateApp/TemplateApp/API/UserProfileService.swift:71-86 | a request to the cleaned path with the given method, the bearer token, the app id and a JSON content type |
| UserProfiles.DeleteRequest | TemplateApp/TemplateApp/API/UserProfileService.swift:53-59 | account deletion is a DELETE carrying the bearer token and the app id only |
| UserProfiles.ProfileRoutes | TemplateApp/TemplateApp/API/UserProfileService.swift:35-59 | fetching and deleting address v1/users/me; bootstrapping posts to v1/users/bootstrap |
| UserProfiles.SendResult | TemplateApp/TemplateApp/API/UserProfileService.swift:88-94 | a non-HTTP response or a status of 400 or more throws with the body text if any; otherwise the profile is the decoded body |
| UserProfiles.DeleteResult | TemplateApp/TemplateApp/API/UserProfileService.swift:61-68 | deletion succeeds exactly on a status below 400; a missing response and a refusal carry their fixed messages |
| TemplateApp.EqualsIsEquivalence | TemplateApp/TemplateApp/TemplateAppApp.swift:130-143 | `Equals`, the AuthState equality, is reflexive, symmetric and transitive |
| TemplateApp.EqualsByCase | TemplateApp/TemplateApp/TemplateAppApp.swift:131-141 | different cases are never equal, and two signed-in states are equal exactly when their identifiers (subject, or identity token for an empty subject) are |
| TemplateApp.RefreshedSessionEqual | TemplateApp/TemplateApp/TemplateAppApp.swift:135-138 | sessions of the same non-empty subject compare equal whatever their tokens |
| TemplateApp.AppState.constructor | TemplateApp/TemplateApp/TemplateAppApp.swift:16-46 | the bundled manifest or the placeholder; a stored unexpired session is restored signed in with the welcome hidden and a profile sync started, otherwise signed out with the welcome shown |
| TemplateApp.AppState.HandleLoginSuccess | TemplateApp/TemplateApp/TemplateAppApp.swift:48-61 | signed in with the session, welcome hidden, a fresh login id and a bootstrapping sync, whether or not persisting worked |
| TemplateApp.AppState.RefreshProfileIfNeeded | TemplateApp/TemplateApp/TemplateAppApp.swift:63-68 | a sync starts only when no profile is loaded and someone is signed in |
| TemplateApp.AppState.ProfileSyncFinished | TemplateApp/TemplateApp/TemplateAppApp.swift:98-104 | a fetched profile is kept; a failed sync changes nothing |
| TemplateApp.AppState.PerformLogout | TemplateApp/TemplateApp/TemplateAppApp.swift:70-85 | only a signed-in user is logged out remotely; every path ends with the session cleared, no profile, signed out and the welcome shown |
| TemplateApp.AppState.DismissWelcome | TemplateApp/TemplateApp/TemplateAppApp.swift:87-89 | the welcome is hidden, so `ShowsWelcome` no longer holds |
| TemplateApp.RestoreUntilDeadline | TemplateApp/TemplateApp/TemplateAppApp.swift:37 | `Restorable`: a stored session is restored exactly while now is before its deadline |
| Welcome.Subtitle | TemplateApp/TemplateApp/WelcomeView.swift:107-112 | the subtitle is the manifest's display name when it is non-empty and the fixed placeholder text otherwise, so it is never empty |
| Welcome.LegalLink.Url | TemplateApp/TemplateApp/WelcomeView.swift:349-356 | a manifest without a legal section has no link URL; otherwise Terms reads the terms URL and Privacy the privacy URL |
| Welcome.LegalLink.Title | TemplateApp/TemplateApp/WelcomeView.swift:338-347 | each link's title, "Terms of Service" or "Privacy Policy", which is also its id, is non-empty |
| Welcome.LegalLinkIdsDistinct | TemplateApp/TemplateApp/WelcomeView.swift:338-347 | the two links have different titles, so their ids differ |
| Welcome.LegalLinksIndependent | TemplateApp/TemplateApp/WelcomeView.swift:349-356 | changing the privacy URL leaves the terms link as it was, and the other way round |
| Welcome.WelcomeState.constructor | TemplateApp/TemplateApp/WelcomeView.swift:7-12 | a fresh welcome screen is not authenticating, has no current provider, no legal sheet and hides the extra options |
| Welcome.WelcomeState.StartLogin | TemplateApp/TemplateApp/WelcomeView.swift:188-191 | the sign-in starts exactly when the app is signed out, and then marks that provider as authenticating; otherwise nothing changes |
| Welcome.WelcomeState.LoginFinished | TemplateApp/TemplateApp/WelcomeView.swift:192-208 | a session signs the app in, hides the welcome screen, records the login, asks for one profile sync and is stored when it encodes; a failure signs out and leaves the welcome flag, the last login, the profile syncs and storage alone; both clear the progress so no button shows it |
| Welcome.WelcomeState.OpenLegalLink | TemplateApp/TemplateApp/WelcomeView.swift:225-231 | the link is presented exactly when the manifest has its URL; otherwise the presented link stays as it was |
| Welcome.WelcomeState.ToggleMoreOptions | TemplateApp/TemplateApp/WelcomeView.swift:211-215 | the extra options flip between shown and hidden |
| Welcome.OneButtonLoads | TemplateApp/TemplateApp/WelcomeView.swift:119-126 | `IsLoading`: at most one provider's button shows progress at a time |
| Welcome.PlaceholderHasNoLegalLinks | TemplateApp/TemplateApp/Config/AppManifest.swift:60-72 | the placeholder manifest has neither legal link, and its subtitle is its display name |
| ForgotPassword.EmailDomain | TemplateApp/TemplateApp/Auth/ForgotPasswordView.swift:106-108 | the domain is the last non-empty piece between '@'s, or "unknown" when there is none; it is never empty and holds no '@' |
| ForgotPassword.EmailDomainOfAddress | TemplateApp/TemplateApp/Auth/ForgotPasswordView.swift:106-108 | for an address local@domain whose domain holds no '@', the domain is exactly what follows the last '@' |
| ForgotPassword.EmailDomainUnknown | TemplateApp/TemplateApp/Auth/ForgotPasswordView.swift:107 | the domain is "unknown" exactly when the address consists of '@'s only (or is empty) |
| ForgotPassword.FailureMessage | TemplateApp/TemplateApp/Auth/ForgotPasswordView.swift:85-97 | an API error shows its own message or the screen's fallback; any other error shows the unexpected-error text |
| ForgotPassword.RequestScreen.constructor | TemplateApp/TemplateApp/Auth/ForgotPasswordView.swift:6-9 | the request screen starts with an empty address, no error, not submitting and no pending reset |
| ForgotPassword.RequestScreen.Submit | TemplateApp/TemplateApp/Auth/ForgotPasswordView.swift:61-68 | the request starts exactly when the address is non-empty, clearing the error and marking it submitting; an empty address shows the enter-email message |
| ForgotPassword.RequestScreen.RequestFinished | TemplateApp/TemplateApp/Auth/ForgotPasswordView.swift:70-98 | a sent code becomes the pending reset for that address and tracks its domain; a failure shows its message and tracks nothing; submitting ends either way |
| ForgotPassword.ConfirmProblem | TemplateApp/TemplateApp/Auth/ForgotPasswordView.swift:186-197 | no problem exactly when the code and new password are present and the confirmation matches; otherwise the first failed check's message, in the screen's order |
| ForgotPassword.ConfirmScreen.constructor | TemplateApp/TemplateApp/Auth/ForgotPasswordView.swift:114-120 | the confirm screen keeps the pending reset and starts with empty fields, no error and not submitting |
| ForgotPassword.ConfirmScreen.Submit | TemplateApp/TemplateApp/Auth/ForgotPasswordView.swift:185-200 | the reset starts exactly when all checks pass; otherwise the first failing check's message is shown |
| ForgotPassword.ConfirmScreen.ConfirmFinished | TemplateApp/TemplateApp/Auth/ForgotPasswordView.swift:202-232 | after the reset and login, the session signs the app in, hides the welcome screen, records the login, asks for one profile sync, is stored when it encodes, leaves the error message alone and tracks the pending address's domain; a failure shows its message and changes no app state, storage or tracking; both end the submission |
| CloudSync.LabelsDistinct | TemplateApp/TemplateApp/ContentView.swift:429-440 | no two statuses share a `Label` in the settings screen |
| CloudSync.Guidance | TemplateApp/TemplateApp/ContentView.swift:277-286 | a hint is shown exactly for the user-off, unavailable and local-fallback statuses |
| CloudSync.RefreshedStatus | TemplateApp/TemplateApp/ContentView.swift:503-525 | the immediate status of a refresh: disabled by the manifest exactly when the feature is off or there is no container, off exactly when the user turned sync off, local fallback exactly when the cloud store is not the one in use, checking otherwise |
| CloudSync.AccountOutcome | TemplateApp/TemplateApp/ContentView.swift:530-556 | an available account enables sync, a missing account and a restricted one get their own statuses, and every other answer, a failed lookup included, means unavailable |
| CloudSync.SavedPreferenceLoads | TemplateApp/TemplateApp/ContentView.swift:1109-1123 | a saved preference loads back as saved, and saving one app's preference leaves every other app's alone |
| CloudSync.PreferenceKeyInjective | TemplateApp/TemplateApp/ContentView.swift:1121-1123 | different app ids have different preference keys |
| CloudSync.SignatureTracksSettings | TemplateApp/TemplateApp/ContentView.swift:449-459 | for one app, equal configuration signatures mean the same manifest flag and the same preference, so a change to either is applied |
| CloudSync.CloudSyncManager.constructor | TemplateApp/TemplateApp/ContentView.swift:412-427 | a new manager is disabled by the manifest with no records, no error, no store, sync preferred on and no configuration |
| CloudSync.CloudSyncManager.FetchRecords | TemplateApp/TemplateApp/ContentView.swift:705-735 | the listed records are the active store's records, newest first, or none without a store |
| CloudSync.CloudSyncManager.RefreshStatus | TemplateApp/TemplateApp/ContentView.swift:503-525 | the records are fetched again and the status becomes the refreshed status of the current settings |
| CloudSync.CloudSyncManager.AccountStatusArrived | TemplateApp/TemplateApp/ContentView.swift:527-557 | an answer for a container that is no longer active changes nothing; otherwise the status follows the account, and a failed lookup records its error |
| CloudSync.CloudSyncManager.EnsureLocalContainer | TemplateApp/TemplateApp/ContentView.swift:909-916 | an open local store is reused; otherwise a new one is opened holding the disk's objects, or the opening error is returned and nothing is kept |
| CloudSync.CloudSyncManager.EnsureCloudContainer | TemplateApp/TemplateApp/ContentView.swift:872-907 | an open cloud store is reused; without a container id the missing-container error is returned as `describe` formats it, "CloudSyncManager (1001): Cloud container ID is missing."; otherwise a new store is opened, or the opening error is returned |
| CloudSync.CloudSyncManager.ActivateLocalStore | TemplateApp/TemplateApp/ContentView.swift:778-811 | when the local store opens it becomes active holding its records plus any migrated from the current store (the helpers `MigrateInto` and `UseLocalStore`), and shows the requested status with that status's detail; when it does not there is no store, no records and the status is unavailable with the error recorded; the cloud store is left as it was |
| CloudSync.CloudSyncManager.ActivateCloudStore | TemplateApp/TemplateApp/ContentView.swift:758-776 | when the cloud store opens it becomes active holding its records plus any migrated ones (the helper `UseCloudStore`, through `MigrateInto`), lists them, and the status is refreshed with the error left alone, while the local store, the migration's source, is left as it was; when it does not, `FallBackToLocal` records the missing-container or opening error and the local store takes over in local fallback with its records listed and the unavailable detail, or, when the local store fails too, there is no store, no records, the local failure status and the local error |
| CloudSync.CloudSyncManager.Configure | TemplateApp/TemplateApp/ContentView.swift:448-488 | an unchanged signature keeps every setting and store and only refreshes the records and the status; a new signature is recorded and the configuration applied, with the full outcome `Configured` states (see `ApplyConfiguration`) |
| CloudSync.CloudSyncManager.ApplyConfiguration | TemplateApp/TemplateApp/ContentView.swift:462-487 | the manifest's settings are taken over and the error cleared; `Configured` then states the store, status, detail, listed records and error of every outcome: the manifest flag off gives the local store disabled by the manifest, the preference off the local store turned off, both on the cloud store checking; a cloud store that fails to open gives the local fallback with the cloud error, and a local store that fails to open gives no store, no records, the local failure status and its error. Nothing is migrated: the store activated holds the objects it held, or the disk's when newly opened (a new app drops both stores first), and the other store is left as it was |
| CloudSync.CloudSyncManager.ActivateConfigured | TemplateApp/TemplateApp/ContentView.swift:476-487 | with the settings in place and the error cleared, the manifest flag off opens the local store disabled by the manifest, the preference off the local store turned off, and both on the cloud store; `Configured` states the outcome of each, failures to open included, with the activated store holding its old or newly opened objects and the other store left as it was |
| CloudSync.CloudSyncManager.SetUserCloudSyncEnabled | TemplateApp/TemplateApp/ContentView.swift:490-501 | nothing changes without the feature, without an app or with the value already in effect; otherwise the preference is saved and the current records move into the cloud store (turned on: records listed, status refreshed, error kept) or the local store (turned off: records listed, turned-off status and detail, error kept); a cloud store that fails to open gives the local fallback with its error, and a local store that fails gives no store with the local error. The store not being activated keeps its records: turning off leaves the cloud store as it was, turning on leaves the local store as it was, and the fallback's local store holds its own records |
| CloudSync.CloudSyncManager.MutateContext | TemplateApp/TemplateApp/ContentView.swift:684-703 | without a store the status becomes not initialized and nothing else changes; otherwise the change is applied to the active store, the error is cleared and the records are fetched again |
| CloudSync.CloudSyncManager.AddTestRecord | TemplateApp/TemplateApp/ContentView.swift:560-572 | the active store gains one object with a fresh id, the stamped test text and the current date; the list is fetched again from the store and the error is cleared, with the status kept; without an active store the status becomes unavailable with the not-initialized detail and nothing else changes |
| CloudSync.CloudSyncManager.UpdateRandomRecord | TemplateApp/TemplateApp/ContentView.swift:574-585 | an empty list changes nothing; otherwise the picked listed record's object gets the updated text and the current date; the list is fetched again from the store and the error is cleared, with the status kept; without an active store the status becomes unavailable with the not-initialized detail and nothing else changes |
| CloudSync.CloudSyncManager.UpdateRecordText | TemplateApp/TemplateApp/ContentView.swift:587-598 | the record's object gets the trimmed text and the current date; the list is fetched again from the store and the error is cleared, with the status kept; without an active store the status becomes unavailable with the not-initialized detail and nothing else changes |
| CloudSync.CloudSyncManager.DeleteAllRecords | TemplateApp/TemplateApp/ContentView.swift:600-606 | the active store is emptied and so is the list; the error is cleared and the status kept; without an active store the status becomes unavailable with the not-initialized detail and nothing else changes |
| CloudSync.CloudSyncManager.CreateImageRecord | TemplateApp/TemplateApp/ContentView.swift:630-648 | a picture that cannot be prepared records the error and changes nothing else; otherwise the active store gains an object with the trimmed note, the date and the picture; the list is fetched again from the store and the error is cleared, with the status kept; without an active store the status becomes unavailable with the not-initialized detail and nothing else changes |
| CloudSync.CloudSyncManager.UpdateImageRecord | TemplateApp/TemplateApp/ContentView.swift:650-667 | a picture that cannot be prepared records the error and changes nothing else; otherwise the record's object gets the trimmed note, the date and the picture; the list is fetched again from the store and the error is cleared, with the status kept; without an active store the status becomes unavailable with the not-initialized detail and nothing else changes |
| CloudSync.CloudSyncManager.DeleteRecord | TemplateApp/TemplateApp/ContentView.swift:669-677 | the first object with the record's id is removed from the active store; the list is fetched again from the store and the error is cleared, with the status kept; without an active store the status becomes unavailable with the not-initialized detail and nothing else changes |
| CloudSync.CloudSyncManager.DeleteAllCloudRecords | TemplateApp/TemplateApp/ContentView.swift:608-628 | nothing changes without the feature; with it, a store that is open or opens is emptied, the error cleared and the records and status refreshed; a missing container ID (recorded as "CloudSyncManager (1001): Cloud container ID is missing.") or a cloud store that fails to open records that error, keeps no cloud store and leaves the records, status and detail as they were |
| CloudSync.SyncToggle.constructor | TemplateApp/TemplateApp/ContentView.swift:68-70 | the toggle starts with nothing pending and no confirmation shown |
| CloudSync.SyncToggle.RequestChange | TemplateApp/TemplateApp/ContentView.swift:313-321 | a request for the value already in effect changes nothing; otherwise it becomes pending and the matching confirmation is shown |
| CloudSync.SyncToggle.CancelPending | TemplateApp/TemplateApp/ContentView.swift:219-234 | "Cancel" or "Keep Sync On" drops the pending value and dismisses its own alert, leaving the other alert's flag as it was |
| CloudSync.SyncToggle.ApplyPending | TemplateApp/TemplateApp/ContentView.swift:323-327 | the button dismisses its alert; without a matching pending value nothing else changes, the stores included; only a confirmation of the pending value reaches the manager, and the pending value is then cleared; a confirmation the manager's guards refuse (feature off, no app, value already in effect) leaves the manager unchanged; an accepted one saves the preference and leaves the manager in the state `SetUserCloudSyncEnabled` gives: the migrated cloud store with refreshed status, the local fallback, the local store turned off, or no store with the local error, and the store not being activated keeps its records |
| CloudRecords.DecodeEncode | TemplateApp/TemplateApp/ContentView.swift:855-868 | decoding a written record gives it back, a decodable object is exactly its record's encoding, and an object is skipped exactly when its id, text or date is missing |
| CloudRecords.DecodeAll | TemplateApp/TemplateApp/ContentView.swift:855-868 | the records kept are exactly those of the objects that decode, and there are no more of them than objects |
| CloudRecords.FetchNewestFirst | TemplateApp/TemplateApp/ContentView.swift:852-869 | the fetch returns a permutation of the decodable objects' records, ordered newest first |
| CloudRecords.Store.constructor | TemplateApp/TemplateApp/ContentView.swift:918-964 | a freshly opened store holds the objects found on disk |
| CloudRecords.IndexById | TemplateApp/TemplateApp/ContentView.swift:818-825 | each indexed id maps to the position of the last target object with that id, and every object with an id is indexed |
| CloudRecords.IndexExisting | TemplateApp/TemplateApp/ContentView.swift:818-825 | the loop over the target's objects builds exactly that index |
| CloudRecords.MergeOne | TemplateApp/TemplateApp/ContentView.swift:827-845 | merging one record keeps every existing object's id in place, never removes an object and keeps the index valid |
| CloudRecords.MergeAll | TemplateApp/TemplateApp/ContentView.swift:827-845 | merging the records in order keeps every existing object's id in place, never removes an object and keeps the index valid |
| CloudRecords.MigrationCoversSource | TemplateApp/TemplateApp/ContentView.swift:827-845 | after the migration every source record's id is present in the target |
| CloudRecords.MigrationKeepsTargetOnly | TemplateApp/TemplateApp/ContentView.swift:827-845 | a target object whose id no source record has is left unchanged |
| CloudRecords.MigrationResolvesShared | TemplateApp/TemplateApp/ContentView.swift:828-834 | for an id in both stores the target object takes the source's text, date and image exactly when the source is not older (a missing date counts as the distant past), and otherwise stays as it was |
| CloudRecords.MigrateRecords | TemplateApp/TemplateApp/ContentView.swift:813-850 | without a source, or when the source is the target, nothing changes; otherwise the target ends as the merge of the source's fetched records into its own objects |
| CloudRecords.MergeRecord | TemplateApp/TemplateApp/ContentView.swift:828-844 | one pass of the loop: an indexed target object takes the record's text, date and image when the record is not older, and a record without a target object is inserted; the result is the merge of that one record |
| CloudRecords.FirstWithId | TemplateApp/TemplateApp/ContentView.swift:577-580 | the first object with the id, or -1 exactly when none has it |
| CloudRecords.UpdateFirst | TemplateApp/TemplateApp/ContentView.swift:590-597 | only the first object with the id is changed, and nothing changes when none has it |
| CloudRecords.RemoveFirst | TemplateApp/TemplateApp/ContentView.swift:670-676 | the first object with the id is removed and every other object kept; nothing changes when none has it |
| CloudRecords.RemovedObjects | TemplateApp/TemplateApp/ContentView.swift:669-677 | with unique ids, deleting by id leaves exactly the objects with other ids |
| CloudRecords.DeletedRecordGone | TemplateApp/TemplateApp/ContentView.swift:669-677 | with unique ids, deleting a record removes it from the fetched records and keeps every other record |
| SyncProject.Substitute | scripts/sync_ios_project.py:12-13 | the left-to-right substitution leaves the text as it was when it replaces nothing |
| SyncProject.NoSubstitutionIffNoMatch | scripts/sync_ios_project.py:12-15 | the substitution count is zero exactly when the pattern matches at no position of the text |
| SyncProject.PlainPrefixUnchanged | scripts/sync_ios_project.py:12-13 | text that cannot start a match is copied unchanged and the substitution goes on after it |
| SyncProject.SettingReplaced | scripts/sync_ios_project.py:12-13 | a bundle-identifier setting with a non-empty value becomes the expanded replacement, counts once, and the scan goes on after its ';' |
| SyncProject.UpdateProjectBundleId | scripts/sync_ios_project.py:9-16 | a replacement template that `re` refuses raises its error; otherwise the update fails with the fixed message exactly when no setting matches, and yields the substituted text when one does |
| SyncProject.Replacement | scripts/sync_ios_project.py:13 | the template `\1` + bundle id + `;` expands to the key, the bundle id and ';' when the id does not start with a digit; two leading octal digits become one octal-escape character in place of the key; any other leading digit is an invalid group reference, and only that case fails |
| SyncProject.SettingRewritten | scripts/sync_ios_project.py:12-16 | a file that starts with one setting gets the expanded replacement in its place, followed by the substituted rest |
| SyncProject.SettingGetsBundleId | scripts/sync_ios_project.py:12-16 | with a bundle id not starting with a digit, a setting comes out as the key, the new bundle id and ';' |
| SyncProject.LeadingDigitRaises | scripts/sync_ios_project.py:13 | the bundle ids `1abc` and `9abc` make the script raise an invalid group reference, whatever the project text |
| SyncProject.OctalBundleIdDropsKey | scripts/sync_ios_project.py:13 | the bundle id `123x` turns a setting into `J3x;`: the key is lost and the id's first two digits become one character |
| SyncProject.UpdatedUrlType | scripts/sync_ios_project.py:32-33 | the URL type gains exactly the name and schemes keys, set to the bundle id and the one scheme, and keeps every other key |
| SyncProject.UpdatedUrlTypes | scripts/sync_ios_project.py:26-33 | a missing or empty list becomes one URL type holding just the bundle id and the one scheme; a non-empty list keeps its tail, and its first dictionary keeps its other keys and gets the name and scheme; a value that is not a list, or a first entry that is not a dictionary, is refused |
| SyncProject.UpdatedInfo | scripts/sync_ios_project.py:23-33 | the updated property list exists exactly when the URL types can be updated; it has the old keys plus the two names and the URL types, both names equal the display name, the URL types are the updated list, and every other key keeps its value |
| SyncProject.InfoPlist.constructor | scripts/sync_ios_project.py:20-21 | the loaded property list holds the file's entries |
| SyncProject.InfoPlist.Update | scripts/sync_ios_project.py:19-36 | the update succeeds exactly when the URL types can be updated, and then the entries become the updated property list; a failure leaves the entries unchanged |
| SyncProject.ProjectFile.constructor | scripts/sync_ios_project.py:11 | the project file object holds the file's text |
| SyncProject.Run | scripts/sync_ios_project.py:39-57 | a wrong argument count exits with status 1 and touches nothing; a manifest that cannot be read, or lacks one of its three values, raises before any file is touched; a project update that fails raises its error and writes neither file; otherwise the project gets the new text, and the run finishes, with the property list updated, exactly when the URL types can be updated, else it raises with the list unchanged |
| Sorting.Filter | TemplateApp/TemplateApp/Home/ChooseFormatView.swift:90 | the kept elements all satisfy the test, and each element occurs as often as in the input when it passes and not at all otherwise |
| Sorting.Insert | TemplateApp/TemplateApp/Home/ChooseFormatView.swift:91 | inserting adds exactly the one element |
| Sorting.SortBy | TemplateApp/TemplateApp/Home/ChooseFormatView.swift:91 | sorting rearranges the elements without adding or losing any |
| Sorting.InsertSorted | TemplateApp/TemplateApp/Home/ChooseFormatView.swift:91 | under a strict weak order, inserting into a sorted sequence keeps it sorted |
| Sorting.SortBySorted | TemplateApp/TemplateApp/Home/ChooseFormatView.swift:91 | under a strict weak order, the sort's result is sorted and a permutation of its input |
| Strings.Trim | TemplateApp/TemplateApp/API/ProfileModels.swift:20 | trimming drops characters of the set from both ends and only there: the result is a contiguous piece of the input that neither begins nor ends with one, and is empty exactly when every character is in the set |
| Strings.TrimUntrimmed | TemplateApp/TemplateApp/API/ProfileModels.swift:20 | a string with nothing to trim at either end is returned unchanged |
| Strings.TrimIdempotent | TemplateApp/TemplateApp/API/ProfileModels.swift:20 | trimming twice is trimming once |
| Strings.Split | TemplateApp/TemplateApp/Auth/HostedUILoginController.swift:218 | the pieces are non-empty and hold no separator |
| Strings.SplitOfJoin | TemplateApp/TemplateApp/Auth/HostedUILoginController.swift:218 | non-empty separator-free pieces joined with the separator split back into exactly those pieces |
| Strings.SplitLastPiece | TemplateApp/TemplateApp/Auth/ForgotPasswordView.swift:107 | a non-empty separator-free suffix after a separator is the last piece |
| Strings.SplitEmptyIffSeparatorsOnly | TemplateApp/TemplateApp/Auth/ForgotPasswordView.swift:107 | there are no pieces exactly when the string consists of separators only |
| Strings.SplitDropsLeadingSeparator | TemplateApp/TemplateApp/Auth/HostedUILoginController.swift:218 | a leading separator does not change the pieces |
| Strings.FirstIndex | TemplateApp/TemplateApp/Auth/EmailSignUpValidator.swift:6 | the position of the first occurrence of the character, or -1 exactly when it does not occur |
| Geometry.Clamp | TemplateApp/TemplateApp/Home/EditAdjustView.swift:176 | with ordered bounds the result lies within them, and a value already within them is kept |
| Geometry.ClampIdempotent | TemplateApp/TemplateApp/Home/EditAdjustView.swift:187-188 | clamping twice with the same bounds is clamping once |
| Geometry.Round | TemplateApp/TemplateApp/Home/PhotoFlowView.swift:350 | the result is within a half of the value, and never negative when the value is not |
| Geometry.RoundHalfAwayFromZero | TemplateApp/TemplateApp/Home/PhotoFlowView.swift:350 | halves round away from zero and whole numbers round to themselves |
| ChooseFormat.ByCountryIsStrictWeakOrder | TemplateApp/TemplateApp/Home/ChooseFormatView.swift:91 | `ByCountry`, ordering presets by country, is a strict weak order whenever the country comparison is one |

## Left out

- I/O and foreign frameworks are not modelled. This covers URLSession, ASWebAuthenticationSession, the Photos framework, UIKit drawing and image encoding, Keychain and UserDefaults storage, file removal, `loadPersistentStores`, and CKContainer.
  - The model receives their results as parameters.
  - `UserDefaults` is a map held by the manager.
  - Preparing an image for a record is a `Result` input.
- Floating point is idealised as `real`, so results can differ from IEEE doubles by rounding.
  - Division by zero is excluded where it occurs, in place of Swift's infinities.
  - The conversion of colour channels to `Double / 255` is not modelled; the model stops at the integer channels.
- Dates are whole seconds since the reference date, `distantPast` included.
- `Date()`, `UUID()`, `randomElement()` and the `DateFormatter` stamps are parameters: `now`, `freshId`, `pick` and `stamp`.
- Swift strings are sequences of code points, not grapheme clusters.
  - Whitespace trimming uses the Unicode White_Space set.
  - `localizedCaseInsensitiveCompare` is an abstract strict weak order.
  - `CharacterSet.alphanumerics` is an input predicate.
- Concurrency is not modelled: `Task`, `DispatchQueue.main.async`, the Combine sinks and NotificationCenter observers.
  - Each becomes a method that receives the delivered value, such as `AccountStatusArrived`, `LoginFinished`, `ProfileSyncFinished` and `ManifestEmitted`.
  - Interleavings other than start-then-finish are not covered.
  - The remote-change observer and `deinit` are left out.
- UploadPhoto.UploadPhotoState.HandleImageSelection: the source sets `isPreparingPhoto`, renders the preview in a detached `Task` and clears the flag on the main actor. The model does all of this in one step, so the state in which the flag is set while the render runs is not modelled.
- UploadPhoto.UploadPhotoState.UsePhoto: the hand-off of the preview to the wizard is likewise one step, without the intermediate state in which `isPreparingPhoto` is set.
- Analytics.AnalyticsManager.Track: the access token is taken when the event is tracked, where the source reads it when the request is sent.
- RatePrompt.RatePromptManager.RequestReviewIfAllowed: one `now` serves both reads of the clock.
- JSON encoding and decoding, `Data(base64Encoded:)` and `URLComponents(string:)` are oracles passed as parameters.
  - A failed JSON encoding of a request body (`EmailAuthService.swift:24`, `UserProfileService.swift:85`) is not modelled.
  - The transport errors of the API services are not modelled; only completed responses are.
- HostedUI.RefreshSession and HostedUI.ExchangedSession: the token endpoint's URL is built with a force unwrap (`URL(string:)!`, HostedUILoginController.swift:104 and :178). A domain that does not form a URL crashes the app there; the model does not represent this crash, and its reply parameter starts after the request was sent.
- HostedUI.DecodeJWTClaims: the body is padded and then given to the base64 oracle as written. Like the source, it does not translate base64url to standard base64.
- ColorHex.ColorFromHex: treats `Scanner.scanHexInt64` as the value of the leading run of hex digits. The scanner's optional `0x` prefix and its 64-bit overflow are not modelled.
- SyncProject.Substitute scans the text explicitly, standing in for Python's `re.subn`.
  - The template `\1<bundle id>;` is expanded by `SyncProject.Replacement` only as far as a leading digit of the bundle id changes it: an octal escape, or an invalid group reference.
  - A backslash inside the bundle id, which `re.subn` would also treat as an escape, is taken literally.
  - Reading the JSON manifest, loading and dumping the plist, and resolving paths are left out. A JSON `null` scheme is not distinguished from a string.
- Core Data is not modelled in full.
  - Save errors and fetch errors are not modelled, so `MigrateRecords` never throws.
  - The order Core Data gives to records with equal dates is unspecified; the model keeps store order.
  - The cloud store's reset and retry after a failed load is folded into the `Disk` input.
- PhotoFlow.ExportPixelSize: Swift's `Int(round(...))` (PhotoFlowView.swift:350, :356-357) traps when the rounded side is above `Int.max` or is not finite, and the app crashes during export. A custom size such as "1e20" mm at 300 DPI reaches this, because `CustomSize.Validate` accepts any positive parsed value. The model works over unbounded integers and returns the huge size instead of the crash.
- PhotoFlow.Render: takes its size from `ExportPixelSize`, so it too returns an image where the source traps on a side above `Int.max`.
- EditAdjust.FrameRect: requires a non-zero aspect ratio. Swift would divide by zero and get infinity.
- EditAdjust.BaseScale: requires a non-zero image size, for the same reason.
- UploadPhoto.AspectFillRect: requires a non-zero target height and image size, for the same reason.
- Push: the presentation options chosen in `willPresent` for a notification in the foreground are not modelled; registration with APNs is only counted.
- `AppleOnDeviceAIService` and `AIServiceFactory` are not modelled: they call FoundationModels.
- Views with no rules of their own are not modelled, and neither are files of plain layout or plumbing:
  - the theme, banners, overlays, share sheet, Safari view and sidebar;
  - the passport home screen, the AI playground and the image pickers;
  - the login and account screens, whose guards repeat those of `WelcomeView` and `AppState`;
  - the manifest and preset loaders, `APIClient`, `AnalyticsClient`, `PushService` and `scripts/generate_project.rb`.
