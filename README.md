# Email popup admin app: verified model of its core logic

This project models, in Dafny, the decision logic of a Shopify app that lets a
merchant build email-capture popups for their storefront. It covers five
pieces:

- **The storefront multi-step popup** (`multistep_popup.dfy`, module
  `MultiStepPopup`). The component's state is the current step, the typed
  email and whether a submit is in flight. Each event handler (next, back,
  email submit and its later settlement, primary, secondary, custom button,
  close, typing, showing) is a function from the old state to the new state
  plus the callbacks it makes, in order. The class `Widget` keeps the same
  state in fields, and its methods are proved to match those functions.
  `Render` is what the component chooses to show: border radius, width,
  padding, heading, the email form or the action buttons and their labels,
  the Back button, progress dots, custom buttons and footer. `Dispatch` and
  `Run` drive the handlers from the controls that are on screen. They prove
  that the step always indexes a section and that every reported move is
  one step between two sections.
- **The hex colour field** (`color_picker_field.dfy`, module
  `ColorPickerField`). It covers the `#RRGGBB` check and the channel reading
  that uses JavaScript's `parseInt(…, 16)`. It also covers the two-digit,
  upper-case hex output; its round trip with the channel reading is proved.
  The field's three handlers are functions on its state (`PickColor`,
  `TypeHex`, `FlipPopover`). Each keeps the model's channels in sync with
  the text: a valid text is always the channel triple it spells. The real
  picker's rounded colour does not always keep that promise (see
  "## Left out"). The class `ColorPicker` holds the same state in fields,
  and its methods move it as those functions say.
- **The upload endpoint** (`upload.dfy`, module `UploadRoute`). It is the
  ordered chain of rejections (no file, then the type, then the 2 MiB cap).
  On success it returns a `data:` URL as section 3 of RFC 2397 describes.
  The base 64 step is modelled as section 4 of RFC 4648 (`base64.dfy`,
  module `Base64`), and that URL is proved to decode to the uploaded type
  and bytes.
- **Creating a popup** (`popup_new.dfy`, module `NewPopupRoute`). A blank
  name is refused. Otherwise a fixed default record with one default button
  is inserted for the session's shop, and the response redirects to its
  editor.
- **The popup list** (`popup_index.dfy`, module `PopupIndexRoute`). The
  loader keeps the shop's popups, newest save first. The toggle writes the
  negation of the submitted flag to the one row with that id and shop. The
  page shows an empty state or a table with a pluralised footer.

The popup table (`popup_store.dfy`, module `PopupStore`) is a class holding
a sequence of rows with unique ids. `Common` (`common.dfy`) has JavaScript's
`trim` and decimal rendering of counts. Trimming is stated for any set of
characters (`Strip`) and used with the white space of ECMA-262.

## Model

| member | source | states |
|---|---|---|
| MultiStepPopup.Next | app/components/MultiStepPopup.tsx:78-86 | the step moves forward by one, and only when it is not the last, so it stays below the number of sections; the move is reported as "next" with the old and new step; a blocked move changes nothing and reports nothing |
| MultiStepPopup.Prev | app/components/MultiStepPopup.tsx:79-93 | the step moves back by one, and only when it is not the first, so it never goes below 0; the move is reported as "previous" with the old and new step; a blocked move reports nothing |
| MultiStepPopup.OnVisibility | app/components/MultiStepPopup.tsx:66-73 | becoming visible resets step, email and submitting to 0, "" and false; any other visibility change keeps the state |
| MultiStepPopup.SubmitEmail | app/components/MultiStepPopup.tsx:95-101 | a submit is ignored when the trimmed email is empty or a submit is in flight; otherwise it marks a submit in flight and hands the email and section id to `onEmailSubmit` |
| MultiStepPopup.SettleSubmit | app/components/MultiStepPopup.tsx:100-118 | after `onEmailSubmit`, a success moves to the step after the one the submit was made on, or asks to close when that was the last step; a failure only ends the submit; in every case the submit is no longer in flight and the step indexes a section |
| MultiStepPopup.PrimaryAction | app/components/MultiStepPopup.tsx:121-132 | an email section submits; on any other section the last step reports "complete" and asks to close, and an earlier step moves on |
| MultiStepPopup.SecondaryAction | app/components/MultiStepPopup.tsx:134-145 | on an email section it reports "skip_email", then moves on or, on the last step, asks to close; elsewhere it only reports "secondary" |
| MultiStepPopup.CustomButtonClick | app/components/MultiStepPopup.tsx:431-434 | a custom button reports its own action, the current section's id and its link, and changes no state |
| MultiStepPopup.BorderRadius | app/components/MultiStepPopup.tsx:164-165 | "rounded" gives 12px, "square" gives 0px, anything else gives 8px, each in both directions |
| MultiStepPopup.MaxWidth | app/components/MultiStepPopup.tsx:166-167 | "large" gives 600px, "small" gives 400px, anything else gives 500px, each in both directions |
| MultiStepPopup.BoxPadding | app/components/MultiStepPopup.tsx:162-163 | a side image gives no padding, a top image gives none on top, anything else gives 32px, each in both directions |
| MultiStepPopup.PrimaryLabel | app/components/MultiStepPopup.tsx:408 | the label is `buttonText`, else `primaryButton`, else "Complete" on the last step and "Continue" before it; it is never empty |
| MultiStepPopup.SubmitLabel | app/components/MultiStepPopup.tsx:367-370 | "Submitting..." while a submit is in flight, else `primaryButton` or "Claim discount"; never empty |
| MultiStepPopup.Render | app/components/MultiStepPopup.tsx:75-467 | nothing is shown exactly when hidden or without sections; the box has the chosen radius, width and padding, and the section's heading and description; the email form appears exactly on email sections, with the placeholder or "Email address", the submit label, a submit button disabled exactly while a submit is in flight, and the secondary button exactly when its text is truthy; otherwise the primary button carries its label; Back appears exactly after the first step; custom buttons appear only on the last step; the footer appears exactly for a truthy footer text on an email section; progress dots appear exactly for a multi-step popup with more than one section, one per section, marking the current one |
| MultiStepPopup.AvailableOnScreen | app/components/MultiStepPopup.tsx:331-434 | a hidden popup takes only the visibility prop and pending settlements; when shown, primary and Back need an action section (Back also a step past the first), submit needs an email section with no submit in flight, secondary needs its truthy text, a custom button needs the last step, and × is always there |
| MultiStepPopup.Dispatch | app/components/MultiStepPopup.tsx:331-434 | every event keeps the step within the sections and every pending submit's step valid; only `isVisible` changes visibility |
| MultiStepPopup.DispatchRunsHandler | app/components/MultiStepPopup.tsx:331-434 | an event whose control is not on screen changes nothing and reports nothing; otherwise each event runs its own handler, a submit is queued exactly when `SubmitEmail` hands it on, and a settlement runs `SettleSubmit` with the step queued for it and leaves the queue |
| MultiStepPopup.DispatchMovesWellFormed | app/components/MultiStepPopup.tsx:84-91 | every step change one event reports goes one step between two sections, and is "next" exactly when it goes forward |
| MultiStepPopup.Run | app/components/MultiStepPopup.tsx:62-145 | over any sequence of events the step stays within the sections and every reported move is well formed |
| MultiStepPopup.StepAlwaysInRange | app/components/MultiStepPopup.tsx:62-93 | from the initial state, whatever the visitor does, `0 <= currentStep < |sections|` whenever there are sections |
| MultiStepPopup.LateSettleGoesBack | app/components/MultiStepPopup.tsx:95-108 | on a three-section popup that asks for the email first, a visitor who submits, skips and presses on to step 2 is sent back to step 1 when the submit settles, with "next" reported from step 0 |
| MultiStepPopup.SettleAfterReopenMovesOn | app/components/MultiStepPopup.tsx:66-73 | closing and reopening does not cancel a pending submit: when it settles, the reset popup moves to the step after the submit's, with that move reported |
| MultiStepPopup.ShowStartsOver | app/components/MultiStepPopup.tsx:67-73 | showing a hidden popup returns it to the first step with an empty email and no submit in flight |
| MultiStepPopup.Widget.constructor | app/components/MultiStepPopup.tsx:62-64 | the component starts on step 0 with an empty email and no submit in flight |
| MultiStepPopup.Widget.SetVisible | app/components/MultiStepPopup.tsx:66-73 | the fields change as `OnVisibility` says and the step invariant is kept |
| MultiStepPopup.Widget.SetEmail | app/components/MultiStepPopup.tsx:335 | typing replaces the email and nothing else |
| MultiStepPopup.Widget.NextStep | app/components/MultiStepPopup.tsx:81-86 | the fields and reported callbacks change as `Next` says |
| MultiStepPopup.Widget.PrevStep | app/components/MultiStepPopup.tsx:88-93 | the fields and reported callbacks change as `Prev` says |
| MultiStepPopup.Widget.HandleEmailSubmit | app/components/MultiStepPopup.tsx:95-101 | it goes ahead exactly when the trimmed email is not empty and no submit is in flight, and then changes state as `SubmitEmail` says |
| MultiStepPopup.Widget.SettleEmailSubmit | app/components/MultiStepPopup.tsx:100-118 | the fields and reported callbacks change as `SettleSubmit` says |
| MultiStepPopup.Widget.HandlePrimaryAction | app/components/MultiStepPopup.tsx:121-132 | the fields and reported callbacks change as `PrimaryAction` says |
| MultiStepPopup.Widget.HandleSecondaryAction | app/components/MultiStepPopup.tsx:134-145 | the fields and reported callbacks change as `SecondaryAction` says |
| MultiStepPopup.Widget.HandleCustomButton | app/components/MultiStepPopup.tsx:431-434 | only the button's report is added |
| MultiStepPopup.Widget.HandleClose | app/components/MultiStepPopup.tsx:184-185 | the × button asks to close and changes no state |
| ColorPickerField.IsHexColor | app/components/ColorPickerField.tsx:89 | valid exactly when 7 characters long, `#` first and six hex digits of either case after it |
| ColorPickerField.HexPrefix | app/components/ColorPickerField.tsx:12-14 | `parseInt` reads the longest prefix of hex digits |
| ColorPickerField.Slice | app/components/ColorPickerField.tsx:12-14 | `slice` is the piece between the bounds when the string is long enough, the rest of the string when it ends between them, and empty when it ends before the start |
| Common.StripLeadingRun | app/components/ColorPickerField.tsx:12-14 | a leading run of skipped characters is dropped whole, up to the first one that is kept |
| ColorPickerField.TrimStartKeeps | app/components/ColorPickerField.tsx:12-14 | `parseInt` of a string that does not start with white space reads it from its first character |
| ColorPickerField.ParseInt16SkipsWhitespace | app/components/ColorPickerField.tsx:12-14 | `parseInt` skips the white space in front of the number |
| ColorPickerField.ParseSignedSign | app/components/ColorPickerField.tsx:12-14 | without a sign the number is its unsigned part; `+` changes nothing; `-` negates it and leaves NaN as NaN |
| ColorPickerField.HexPrefixOfRun | app/components/ColorPickerField.tsx:12-14 | the digits read are exactly the run of hex digits at the start |
| ColorPickerField.ParseUnsignedPrefixed | app/components/ColorPickerField.tsx:12-14 | after `0x` or `0X` a run of hex digits reads as its value, whatever follows |
| ColorPickerField.ParseUnsignedBare | app/components/ColorPickerField.tsx:12-14 | without the prefix a run of hex digits reads as its value too, except a lone `0` before `x`, which starts the prefix |
| ColorPickerField.ParseUnsignedNoDigits | app/components/ColorPickerField.tsx:12-14 | no hex digit where the number starts, with or without `0x`, gives NaN |
| ColorPickerField.Channels | app/components/ColorPickerField.tsx:12-14 | a text of five characters or fewer has no blue channel to read, so it gives no colour |
| ColorPickerField.ParseTwoHexDigits | app/components/ColorPickerField.tsx:12-14 | two hex digits parse in base 16 to their pair value |
| ColorPickerField.ChannelsOfHexColor | app/components/ColorPickerField.tsx:12-14 | a valid hex colour's channels are the values of characters 1-2, 3-4 and 5-6, each in 0..255 |
| ColorPickerField.ToBase16 | app/components/ColorPickerField.tsx:66 | `toString(16)` writes lower-case digits whose value is the number, one digit exactly below 16 |
| ColorPickerField.ToHex | app/components/ColorPickerField.tsx:65-68 | a channel in 0..255 becomes exactly two hex digits whose value is the channel |
| ColorPickerField.ToUpper | app/components/ColorPickerField.tsx:70 | each character is upper-cased and the length is kept |
| ColorPickerField.HexOfChannels | app/components/ColorPickerField.tsx:70 | the output is seven characters long and starts with `#` |
| ColorPickerField.HexOfChannelsReadsBack | app/components/ColorPickerField.tsx:65-70 | for channels in 0..255 the output is a valid hex colour with no lower-case letter, whose channels read back as the ones given |
| ColorPickerField.HexOfChannelsInjective | app/components/ColorPickerField.tsx:65-70 | different channel triples are written as different colours |
| ColorPickerField.InitialField | app/components/ColorPickerField.tsx:74-76 | the text is the given value, the popover is closed, and the field starts in sync |
| ColorPickerField.PickColor | app/components/ColorPickerField.tsx:78-83 | the picked colour is kept, the popover is untouched, and the new text is the colour's upper-case hex, exactly what is reported |
| ColorPickerField.PickColorSynced | app/components/ColorPickerField.tsx:78-83 | after a pick the text is a valid hex colour that reads back as the picked colour, so the field is in sync |
| ColorPickerField.TypeHex | app/components/ColorPickerField.tsx:85-95 | the typed text is always kept; the text is reported exactly when it is a valid hex colour, and then the colour is read from it; otherwise the colour is kept; the field stays in sync |
| ColorPickerField.FlipPopover | app/components/ColorPickerField.tsx:97-99 | the popover flag is negated, text and colour are kept, and being in sync is unaffected |
| ColorPickerField.TypingPickedHexKeepsColor | app/components/ColorPickerField.tsx:78-95 | typing back the text a pick produced leaves the field as the pick left it and reports the same text |
| ColorPickerField.ColorPicker.constructor | app/components/ColorPickerField.tsx:74-76 | the fields hold `InitialField` of the value and nothing has been reported |
| ColorPickerField.ColorPicker.HandleColorPickerChange | app/components/ColorPickerField.tsx:78-83 | the fields and reported values move as `PickColor` says |
| ColorPickerField.ColorPicker.HandleHexInputChange | app/components/ColorPickerField.tsx:85-95 | the fields and reported values move as `TypeHex` says |
| ColorPickerField.ColorPicker.TogglePopover | app/components/ColorPickerField.tsx:97-99 | the fields move as `FlipPopover` says and nothing is reported |
| UploadRoute.Action | app/routes/api.upload.tsx:8-46 | 500 when the form cannot be read; then 400 "No file provided", then 400 for a type outside the four image types, then 400 above 2097152 bytes; 200 exactly when every check passes and the bytes can be read, with the data URL and the file's name, size and type unchanged; 500 "Failed to upload file" when the bytes cannot be read |
| UploadRoute.SizeCapBoundary | app/routes/api.upload.tsx:24-27 | exactly 2097152 bytes is accepted and one byte more is refused |
| UploadRoute.TypeCheckedBeforeSize | app/routes/api.upload.tsx:13-27 | an oversized file of a refused type gets the type error |
| UploadRoute.AllowedTypesHaveNoComma | app/routes/api.upload.tsx:18 | no allowed type contains a comma, so it cannot end the URL's header early |
| UploadRoute.DataUrl | app/routes/api.upload.tsx:33 | the URL is `data:`, the type, `;base64,` and the base 64 encoding of the bytes, four characters per started group of three |
| UploadRoute.DataUrlRoundTrip | app/routes/api.upload.tsx:33 | `data:<type>;base64,<payload>` parses back to the type and bytes it was built from |
| UploadRoute.UploadedUrlDecodes | app/routes/api.upload.tsx:29-41 | every accepted upload's URL decodes to the file's type and bytes |
| Base64.ValueOf | app/routes/api.upload.tsx:32 | a base 64 character's value is the one it is written for |
| Base64.Encode | app/routes/api.upload.tsx:32 | the encoding is padded to four characters per three bytes, all from the base 64 alphabet or `=` |
| Base64.DecodeTriple | app/routes/api.upload.tsx:32 | a full group of three bytes decodes back from its four characters |
| Base64.DecodeEncode | app/routes/api.upload.tsx:30-32 | decoding the encoding gives back the bytes |
| NewPopupRoute.HasNameIffNotBlank | app/routes/app.popup.new.tsx:30-32 | a name is accepted exactly when present and not all white space |
| NewPopupRoute.NewPopup | app/routes/app.popup.new.tsx:45-60 | the record has the session's shop, the trimmed name, the fixed heading, description, placeholders and footer text, exactly the one default button, a 10 percent discount and no phone field |
| NewPopupRoute.EditorUrl | app/routes/app.popup.new.tsx:62 | the redirect is `/app/popup/` followed by the new id |
| NewPopupRoute.Action | app/routes/app.popup.new.tsx:25-66 | a blank name gives 400 "Popup name is required" and stores nothing; otherwise the default record is appended and the response redirects to its editor; a refused create gives 500 "Failed to create popup" and stores nothing |
| Common.StripLeading | app/components/ColorPickerField.tsx:12 | what is left after skipping leading white space is a suffix of the input |
| Common.StripLeadingShape | app/components/ColorPickerField.tsx:12 | `parseInt` skips exactly the leading white space: all that is dropped is white space, and what is kept does not start with it |
| Common.StripTrailing | app/routes/app.popup.new.tsx:30 | what is left after dropping trailing white space is a prefix of the input |
| Common.StripTrailingShape | app/routes/app.popup.new.tsx:30 | exactly the trailing white space is dropped |
| Common.StripShape | app/routes/app.popup.new.tsx:30 | `trim` keeps the infix that starts after the leading white space, neither starts nor ends with white space, and has only white space around it |
| Common.StripEmptyIffAllIn | app/routes/app.popup.new.tsx:30 | a string trims to nothing exactly when it is all white space |
| Common.StripIdempotent | app/routes/app.popup.new.tsx:48 | the stored trimmed name trims to itself |
| Common.NatToString | app/routes/app._index.tsx:189 | a count is written as decimal digits without a leading zero |
| Common.ParseNatToString | app/routes/app._index.tsx:189 | the written count reads back as the count |
| Common.NatToStringInjective | app/routes/app._index.tsx:189 | different counts are written differently |
| PopupStore.WithActive | app/routes/app._index.tsx:44-47 | the rows with that id and shop get the new `isActive`, every other row is unchanged |
| PopupStore.WithActiveTouchesOne | app/routes/app._index.tsx:44-47 | with unique ids exactly one row changes, and only in `isActive` |
| PopupStore.PopupTable.Create | app/routes/app.popup.new.tsx:45-60 | the row is appended exactly when its id is new; otherwise nothing changes |
| PopupStore.PopupTable.SetActive | app/routes/app._index.tsx:44-47 | the update succeeds exactly when a row has that id and shop, and the rows become `WithActive` of the old ones |
| PopupIndexRoute.OfShop | app/routes/app._index.tsx:28 | a popup is kept exactly when it is stored and belongs to the shop, and then as many times as it is stored |
| PopupIndexRoute.NewestFirstOrdersAll | app/routes/app._index.tsx:29 | in a list ordered newest first, any popup is at least as recent as every popup after it |
| PopupIndexRoute.InsertNewestFirst | app/routes/app._index.tsx:29 | inserting into a newest-first list keeps it newest first and adds exactly that popup |
| PopupIndexRoute.SortNewestFirst | app/routes/app._index.tsx:29 | the result is ordered by `updatedAt`, newest first, and is a permutation of the input |
| PopupIndexRoute.Loader | app/routes/app._index.tsx:24-33 | the list is exactly the shop's popups, each as often as stored, newest save first |
| PopupIndexRoute.CreatedPopupIsListed | app/routes/app._index.tsx:27-30 | a popup just created for a shop appears in that shop's list |
| PopupIndexRoute.LoaderIsolatesShops | app/routes/app._index.tsx:27-28 | no shop's list shows another shop's popup |
| PopupIndexRoute.NewActive | app/routes/app._index.tsx:42-46 | the stored flag is false exactly when the submitted text is "true" |
| PopupIndexRoute.Action | app/routes/app._index.tsx:35-53 | a non-toggle action answers `success: false` and changes nothing; a toggle changes only the row with that id and shop, and succeeds exactly when that row exists |
| PopupIndexRoute.ToggleForm | app/routes/app._index.tsx:60-65 | the form posts the toggle action and the popup's id, and the flag it sends is read back as the negation of the popup's |
| PopupIndexRoute.ToggleFormFlips | app/routes/app._index.tsx:60-65 | a row's ON/OFF button flips that popup's flag and leaves every other row as it was |
| PopupIndexRoute.RowOf | app/routes/app._index.tsx:107-124 | the status reads ON exactly for an active popup; the row links to the popup's editor and posts its toggle |
| PopupIndexRoute.FooterText | app/routes/app._index.tsx:189 | the footer is "Showing ", the count in decimal, then " popup" for a count of 1 and " popups" otherwise |
| PopupIndexRoute.FooterTextInjective | app/routes/app._index.tsx:189 | different counts give different footers |
| PopupIndexRoute.ListViewOf | app/routes/app._index.tsx:155-190 | the empty state is shown exactly when there are no popups; otherwise one row per popup, in order, and the footer for their count |

## Left out

- Styling colours, fonts, images, the logo and the alignment are only passed through to CSS, so they are not modelled. Only the values the conditionals choose are.
- React's scheduling is not modelled: effect timing, batching of state updates and the 500 ms and 1000 ms delays. A submit's settlement is one event that may come at any later time. It is applied to the state current then, with the step captured at the submit.
- MultiStepPopup.Dispatch: the sections are fixed for the widget's life. The component never re-clamps the step when its `sections` prop changes, and the model does not cover that change.
- MultiStepPopup.Available: the browser's own validation of the `required` email input is not modelled. The model lets an invalid address through to the handler's guard.
- The hue/saturation/brightness floating-point conversion in the colour field is not modelled. The picker's colour is its three 0-255 channels instead, and `HexOfChannels` is the integer part of `hsbToHex`.
- ColorPickerField.PickColorSynced: the field is in sync only for the model's channels. `hexToHsb` rounds saturation and brightness to two decimals (app/components/ColorPickerField.tsx:38-39), so the real picker may not show exactly the typed colour. Typing `#123456` gives a colour that `hsbToHex` writes back as `#123457`. `TypeHex` and `InitialField` make the same channel-level promise.
- `ColorPickerField.Channels` treats an unparsable channel (`NaN`) as no colour at all. The float arithmetic such a channel would go through is not modelled.
- NewPopupRoute.Action: the `name` field is taken to be text or absent. A file entry there would make `name?.trim()` throw before the `try` (app/routes/app.popup.new.tsx:27-30), so the route answers neither the 400 nor the 500 JSON; that case is not modelled.
- `authenticate.admin`, the session and `request.formData()` are foreign calls. The session is a given shop string. The form arrives already read, or as `Unreadable` when reading it fails.
- The `console.error` logging in the upload and create handlers (app/routes/api.upload.tsx:44, app/routes/app.popup.new.tsx:64) is output only, so it is not modelled.
- UploadRoute.Action: the `type` form field is read but never used, so it is not modelled. Failures while reading the file's bytes are one `None` content.
- The store's write failures other than an id collision are not modelled. Neither is its `@updatedAt` bump on update, nor the id and time it assigns (these come in as `Assigned`).
- `JSON.stringify` of the default button list is not modelled. The record keeps the button list as a sequence.
- The list page's `formatDate`, the views, subscribers and conversion-rate columns, the toast and the fetcher's loading flag are display only.
