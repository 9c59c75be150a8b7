# Email builder, billing dialog and maintenance page — a Dafny model

This project models five pieces of a React web client:

- **The two-column card block** of the e-mail builder:
  - its list of cards;
  - the whole-list edits the component hands to `onUpdate`: image upload, image deletion and a resize frame;
  - the editor state behind the drag-resize of a card image: pressing a handle, moving the pointer, releasing it;
  - which card is hovered, which decides whether the upload/delete overlay and the corner handles show;
  - the size style of a card image.
- **The single-image block:**
  - the style its `<img>` is drawn with: width, height, display, margin;
  - the alt-text fallback;
  - the upload prompt shown when there is no source;
  - what an upload causes: the size advisory above 1 MiB, the call to `onSrcChange`, the read-error report.
- **The block picker:** the catalog of thirteen block kinds, the case-insensitive search over label and description, and a click that adds one block.
- **The billing dialog that adds or edits a payment method.**
  - Form logic (module `PaymentForm`):
    - card-network detection;
    - the card-number, expiry and CVC input formatters;
    - the card and PayPal validators;
    - the per-field error lookup;
    - the payment method built on submit, including what an edited method passes on.
  - The dialog (module `PaymentDialog`): a class holding the form, the errors shown, the selected tab, the running submission, the methods handed to `onAdd` and the close requests.
- **The maintenance page:** its seconds counter and the `HH:MM:SS` text it shows.

`Strings` and `Decimal` are support modules:

- `Strings`: ASCII lower-casing, white-space trimming, digit and space filters, substring search.
- `Decimal`: decimal printing and parsing of integers, and `padStart`.

Regular expressions of the source are written out as predicates on character sequences. Each predicate's doc comment gives the pattern it stands for.

Time enters the model as parameters:

- The dialog's 800 ms submission delay is split into two steps: `AddCard`/`AddPayPal` start the submission, and `FinishSubmit` is the timer firing.
- `FinishSubmit` takes the clock reading (`Date.now()`) and today's date as parameters.
- The maintenance page's one-second interval is the `Tick` method.

## Model

| member | source | states |
|---|---|---|
| TwoColumnCard.WithImage | client/components/email-builder/blocks/TwoColumnCardBlockComponent.tsx:31-41 | a finished image read sets the image and alt text of every card with the id, and only those fields; every other card stays as it is, in place |
| TwoColumnCard.WithoutImage | client/components/email-builder/blocks/TwoColumnCardBlockComponent.tsx:47-54 | deleting empties the image and alt text and unsets both dimensions of the target cards; no other card changes |
| TwoColumnCard.WithImageSize | client/components/email-builder/blocks/TwoColumnCardBlockComponent.tsx:117-122 | a resize frame writes both dimensions of the target cards and nothing else |
| TwoColumnCard.EditsOfAbsentIdChangeNothing | client/components/email-builder/blocks/TwoColumnCardBlockComponent.tsx:32-40 | an edit addressed to an id no card has returns the list unchanged |
| TwoColumnCard.EditsKeepDimensionsPaired | client/components/email-builder/blocks/TwoColumnCardBlockComponent.tsx:47-54 | no edit leaves a card with one image dimension set and the other unset |
| TwoColumnCard.LastResizeFrameWins | client/components/email-builder/blocks/TwoColumnCardBlockComponent.tsx:117-122 | two resize frames in a row leave only the second frame's size |
| TwoColumnCard.DeleteImageIdempotent | client/components/email-builder/blocks/TwoColumnCardBlockComponent.tsx:47-54 | deleting an image twice is the same as deleting it once |
| TwoColumnCard.DeleteAfterResizeForgetsSize | client/components/email-builder/blocks/TwoColumnCardBlockComponent.tsx:47-54 | a delete after a resize leaves no trace of the resize |
| TwoColumnCard.AtLeastMin | client/components/email-builder/blocks/TwoColumnCardBlockComponent.tsx:88 | `Math.max(100, v)` is at least 100 and at least `v`, and equals one of them |
| TwoColumnCard.ResizedSize | client/components/email-builder/blocks/TwoColumnCardBlockComponent.tsx:83-115 | the handle table: east/west handles move the width by the horizontal delta, with a sign given by the side; north/south handles move the height by the vertical delta, likewise; corner handles do both; each driven dimension is floored at 100; an unknown handle keeps the start size |
| TwoColumnCard.ResizeFloor | client/components/email-builder/blocks/TwoColumnCardBlockComponent.tsx:86-115 | a driven dimension never ends below 100; an undriven one keeps its start value |
| TwoColumnCard.DrawnHandlesDriveBoth | client/components/email-builder/blocks/TwoColumnCardBlockComponent.tsx:208-213 | each of the four corner handles the card draws drives both width and height |
| TwoColumnCard.ResizeExamples | client/components/email-builder/blocks/TwoColumnCardBlockComponent.tsx:86-115 | worked values: a south-east drag grows both dimensions; a north-west drag shrinks both; an overlong drag stops at 100×100; an unknown handle changes nothing |
| TwoColumnCard.FirstIndexOf | client/components/email-builder/blocks/TwoColumnCardBlockComponent.tsx:69 | the index of the first card with the id, or none exactly when no card has it |
| TwoColumnCard.FindCard | client/components/email-builder/blocks/TwoColumnCardBlockComponent.tsx:69 | `find` returns the first card of the list with that id, and nothing exactly when the id is absent |
| TwoColumnCard.StartWidth | client/components/email-builder/blocks/TwoColumnCardBlockComponent.tsx:70 | the start width is the card's own non-zero width; a missing card, an unset width or a zero width all give 300 |
| TwoColumnCard.StartHeight | client/components/email-builder/blocks/TwoColumnCardBlockComponent.tsx:71 | the same for the height, with fallback 200 |
| TwoColumnCard.ImageDimensionStyle | client/components/email-builder/blocks/TwoColumnCardBlockComponent.tsx:170-171 | a dimension renders as "auto" exactly when it is unset or zero, otherwise as its pixel value |
| TwoColumnCard.DeletedCardRendersAuto | client/components/email-builder/blocks/TwoColumnCardBlockComponent.tsx:47-54 | after a delete the card shows the upload prompt, and both sizes render as "auto" |
| TwoColumnCard.ResizedCardRendersPixels | client/components/email-builder/blocks/TwoColumnCardBlockComponent.tsx:117-122 | after a resize frame the image renders at the computed pixel sizes |
| TwoColumnCard.ResizeKeepsImages | client/components/email-builder/blocks/TwoColumnCardBlockComponent.tsx:117-122 | a resize frame keeps every card's id and image, so a hovered card keeps its controls while it is resized |
| TwoColumnCard.CardBlockEditor.constructor | client/components/email-builder/blocks/TwoColumnCardBlockComponent.tsx:15-22 | a new editor is idle, with no card hovered |
| TwoColumnCard.CardBlockEditor.ResizeStart | client/components/email-builder/blocks/TwoColumnCardBlockComponent.tsx:56-72 | a press records the card, the handle, the pointer position and the start size (with its fallbacks); it replaces any resize in progress and leaves the block and the hover alone |
| TwoColumnCard.CardBlockEditor.MouseMove | client/components/email-builder/blocks/TwoColumnCardBlockComponent.tsx:74-123 | while resizing with a non-empty handle and card id, the block becomes the list with the size from the handle table written into that card; in every other state nothing changes; the resize state is kept |
| TwoColumnCard.CardBlockEditor.MouseUp | client/components/email-builder/blocks/TwoColumnCardBlockComponent.tsx:125-129 | a release returns the editor to idle without touching the block |
| TwoColumnCard.CardBlockEditor.MouseEnter | client/components/email-builder/blocks/TwoColumnCardBlockComponent.tsx:159 | entering a card makes it the hovered one, so its controls show exactly when it has an image and no other card's do; resizing and the block are unaffected |
| TwoColumnCard.CardBlockEditor.MouseLeave | client/components/email-builder/blocks/TwoColumnCardBlockComponent.tsx:160 | leaving clears the hover, so no card shows its controls; resizing and the block are unaffected |
| TwoColumnCard.CardBlockEditor.ImageLoaded | client/components/email-builder/blocks/TwoColumnCardBlockComponent.tsx:24-45 | a finished read hands back the block captured when the file was chosen, with the data string and the file name in that card, so an edit made during the read is dropped; when nothing changed in between it is the current block with the image set; the resize state and the hover are kept |
| TwoColumnCard.CardBlockEditor.DeleteImage | client/components/email-builder/blocks/TwoColumnCardBlockComponent.tsx:47-54 | the delete button applies the delete edit; the resize state and the hover are kept |
| TwoColumnCard.CardBlockEditor.ControlsVisible | client/components/email-builder/blocks/TwoColumnCardBlockComponent.tsx:164-213 | the overlay and the handles show exactly on the hovered card when it has an image |
| ImageBlock.WidthStyle | client/components/email-builder/blocks/ImageBlockComponent.tsx:57 | the width is the printed number followed by the block's own width unit, whatever that unit is |
| ImageBlock.HeightStyle | client/components/email-builder/blocks/ImageBlockComponent.tsx:58-61 | the height carries "%" when the unit is "%", and "px" for every other unit |
| ImageBlock.HeightUnitAsymmetry | client/components/email-builder/blocks/ImageBlockComponent.tsx:57-61 | unlike the width, the height shows its stored unit only when that unit is "%" or "px"; its text ends in '%' exactly when the unit is "%" |
| ImageBlock.AltText | client/components/email-builder/blocks/ImageBlockComponent.tsx:54 | the alt text is never empty: the block's own when set, otherwise "Image" |
| ImageBlock.Style | client/components/email-builder/blocks/ImageBlockComponent.tsx:56-63 | centred alignment gives display "block" and margin "0 auto"; any other alignment gives "inline" and "0"; width and height as above |
| ImageBlock.Render | client/components/email-builder/blocks/ImageBlockComponent.tsx:50-87 | the upload prompt is drawn exactly when the source is empty; otherwise the image with its source, alt text and style |
| ImageBlock.Upload | client/components/email-builder/blocks/ImageBlockComponent.tsx:18-41 | no file does nothing; the advisory fires exactly for a file over 1 MiB; `onSrcChange` gets exactly a non-empty read result; a failed read is reported |
| ImageBlock.AdvisoryDoesNotBlock | client/components/email-builder/blocks/ImageBlockComponent.tsx:22-33 | the file size never changes what is committed |
| ImageBlock.CommittedUploadShowsImage | client/components/email-builder/blocks/ImageBlockComponent.tsx:32-33 | a committed source turns the upload prompt into the image |
| BlocksPanel.Filtered | client/components/email-builder/BlocksPanel.tsx:151-155 | the filter keeps only options of the list that match, and never more options than there were |
| BlocksPanel.FilteredMembership | client/components/email-builder/BlocksPanel.tsx:151-155 | an option is shown exactly when it is in the list and its lower-cased label or description contains the lower-cased query |
| BlocksPanel.FilteredIsSubsequence | client/components/email-builder/BlocksPanel.tsx:151 | the shown options keep catalog order |
| BlocksPanel.EmptyQueryKeepsAll | client/components/email-builder/BlocksPanel.tsx:151-155 | the empty query shows the whole catalog |
| BlocksPanel.CaseInsensitive | client/components/email-builder/BlocksPanel.tsx:153-154 | queries equal up to ASCII case show the same options |
| BlocksPanel.MatchesPrefix | client/components/email-builder/BlocksPanel.tsx:153-154 | an option matching a query matches every prefix of that query |
| BlocksPanel.ExtendingQueryNarrows | client/components/email-builder/BlocksPanel.tsx:151-155 | typing more never brings an option back: the longer query's result lies within the shorter one's, in order |
| BlocksPanel.CatalogIdsDistinct | client/components/email-builder/BlocksPanel.tsx:53-149 | the catalog holds thirteen options with pairwise distinct ids |
| BlocksPanel.Click | client/components/email-builder/BlocksPanel.tsx:157-159 | a click makes one `onAddBlock` call, adding exactly one block, of the option's kind, after the earlier ones |
| BlocksPanel.ClickAddsOneCatalogBlock | client/components/email-builder/BlocksPanel.tsx:151-159 | clicking any shown option adds one block of a kind the catalog offers |
| Maintenance.Field | client/pages/Maintenance.tsx:18-20 | `padStart(2, "0")` gives at least two digits that read back as the number; exactly two when the number is below 100 |
| Maintenance.TimeFields | client/pages/Maintenance.tsx:15-17 | hours, minutes and seconds split the count exactly, with minutes and seconds below 60 |
| Maintenance.FormatTimeRoundTrip | client/pages/Maintenance.tsx:14-21 | the text is `H…H:MM:SS`; the hours, minutes and seconds fields read back as the hours, the minutes below 60 and the seconds below 60 of the count, and reading the whole text back gives the seconds |
| Maintenance.FormatTimeLength | client/pages/Maintenance.tsx:14-21 | the text has eight characters exactly when the count is below 100 hours |
| Maintenance.ElapsedClock.constructor | client/pages/Maintenance.tsx:5 | the counter starts at zero |
| Maintenance.ElapsedClock.Tick | client/pages/Maintenance.tsx:8-10 | each tick adds one second |
| Maintenance.ElapsedClock.Display | client/pages/Maintenance.tsx:14-21 | the page shows a clock text that reads back as the elapsed seconds, its three fields being the hours, the minutes (below 60) and the seconds (below 60) of the count; it is eight characters long exactly below 100 hours |
| PaymentForm.CardNetwork | client/components/billing/AddPaymentMethodDialog.tsx:63-70 | on the number without white space, each network name is returned exactly when its pattern matches; "" exactly when none does; a named network implies 13, 15 or 16 digits |
| PaymentForm.FormatCardNumberShape | client/components/billing/AddPaymentMethodDialog.tsx:155-161 | the shown number is the first 19 digits typed, in groups of four separated by single spaces, with no space at the end |
| PaymentForm.GroupByFourLength | client/components/billing/AddPaymentMethodDialog.tsx:159 | `replace(/(\d{4})/g, "$1 ")` adds one space per full group of four digits |
| PaymentForm.GroupByFourAt | client/components/billing/AddPaymentMethodDialog.tsx:159 | after the replacement, every fifth character is a space and every other one is the digit it stands for |
| PaymentForm.GroupByFourDigits | client/components/billing/AddPaymentMethodDialog.tsx:159 | removing the spaces from the replacement gives back the digits |
| PaymentForm.FormattedCardNumberDigits | client/components/billing/AddPaymentMethodDialog.tsx:155-161 | removing the spaces from the shown number gives the first 19 digits typed |
| PaymentForm.CardDigitsIgnoreSpaces | client/components/billing/AddPaymentMethodDialog.tsx:156-158 | removing white space before the other non-digits keeps the same first 19 digits as removing the non-digits alone |
| Strings.TrimEnds | client/components/billing/AddPaymentMethodDialog.tsx:159 | `trim()` leaves no white space at either end, and leaves nothing exactly when the text is all white space |
| PaymentForm.FormatCardNumberIdempotent | client/components/billing/AddPaymentMethodDialog.tsx:155-161 | formatting the shown number again changes nothing |
| PaymentForm.NetworkOfFormattedNumber | client/components/billing/AddPaymentMethodDialog.tsx:146-149 | the network detected from the shown number is that of the digits typed |
| PaymentForm.FormatExpiry | client/components/billing/AddPaymentMethodDialog.tsx:163-169 | the expiry text has at most five characters; below two digits it is the digits; from two on it is two digits, a slash and up to two digits; its digits are the first four digits typed |
| PaymentForm.FormatExpiryIdempotent | client/components/billing/AddPaymentMethodDialog.tsx:163-169 | formatting a shown expiry again changes nothing |
| PaymentForm.FormatExpiryKeepsValid | client/components/billing/AddPaymentMethodDialog.tsx:163-169 | a valid expiry passes through the formatter unchanged |
| PaymentForm.FormatCvc | client/components/billing/AddPaymentMethodDialog.tsx:171-174 | the CVC is a prefix of the digits typed, at most four long: all of them when fewer than four were typed, exactly four otherwise |
| PaymentForm.FormatCvcIdempotent | client/components/billing/AddPaymentMethodDialog.tsx:171-174 | formatting a shown CVC again changes nothing |
| PaymentForm.NameGivenWhenTrimmed | client/components/billing/AddPaymentMethodDialog.tsx:75 | a name counts as given exactly when trimming leaves something of it |
| PaymentForm.ValidateCardForm | client/components/billing/AddPaymentMethodDialog.tsx:72-99 | the validator builds the list of the failed checks, in field order; it holds at most four errors and is empty exactly when the form is valid |
| PaymentForm.CardChecksDescribe | client/components/billing/AddPaymentMethodDialog.tsx:72-99 | each field has an error exactly when its check fails (name not blank; at least 13 characters without white space; MM/YY with month 01-12; at least three CVC characters), with that field's message, in field order |
| PaymentForm.ValidExpiryMeansMonth | client/components/billing/AddPaymentMethodDialog.tsx:87 | the expiry pattern holds exactly when the text is two digits naming a month from 1 to 12, a slash and two digits |
| PaymentForm.EmailMatchesIsPlain | client/components/billing/AddPaymentMethodDialog.tsx:104 | the e-mail pattern holds exactly when the text has no white space, exactly one '@', not first, and after it a '.' that is neither right after the '@' nor last |
| PaymentForm.ValidatePayPalForm | client/components/billing/AddPaymentMethodDialog.tsx:101-112 | the PayPal validator returns no error exactly when the e-mail matches, otherwise the one e-mail error |
| PaymentForm.ErrorMessage | client/components/billing/AddPaymentMethodDialog.tsx:151-153 | a field without an error shows "" |
| PaymentForm.ErrorMessageIsFirst | client/components/billing/AddPaymentMethodDialog.tsx:151-153 | a field with errors shows the message of its first error |
| PaymentForm.CardErrorMessages | client/components/billing/AddPaymentMethodDialog.tsx:151-153 | after the card validator, each field shows its own message exactly when it was rejected, and "" otherwise |
| PaymentForm.FreshId | client/components/billing/AddPaymentMethodDialog.tsx:186 | a fresh id is "pm_" followed by the decimal clock reading |
| PaymentForm.Inherit | client/components/billing/AddPaymentMethodDialog.tsx:186-195 | a new method gets a fresh id, is not default, is active, has autopay on and is last used today; an edited one keeps its default flag, status and autopay setting, and keeps its id and last-used date unless they are empty |
| PaymentForm.NewCardMethod | client/components/billing/AddPaymentMethodDialog.tsx:185-196 | the card method is a credit card of the detected network (or "Card"), with the form's expiry and holder, the last four digits of the number (the corrected stored number, see Findings), and the inherited bookkeeping fields |
| PaymentForm.NewCardMethodAsWritten | client/components/billing/AddPaymentMethodDialog.tsx:189 | the card method as written stores the last four characters of the shown number, and agrees with `NewCardMethod` on every other field |
| PaymentForm.NewPayPalMethod | client/components/billing/AddPaymentMethodDialog.tsx:213-223 | the PayPal method has no network, the e-mail in the number slot, no expiry, the holder "PayPal Account", and the inherited bookkeeping fields |
| PaymentForm.EditModeInheritance | client/components/billing/AddPaymentMethodDialog.tsx:185-223 | both builders agree on what editing keeps (default flag, status, autopay, a non-empty id); without an edited method, both give a non-default, active, autopay method with the same `pm_` id |
| PaymentForm.LastFourChars | client/components/billing/AddPaymentMethodDialog.tsx:189 | `slice(-4)` gives the last four characters, or the whole text when it is shorter |
| PaymentForm.LastFourCharsKeepsSpace | client/components/billing/AddPaymentMethodDialog.tsx:189 | when the digit count is over four and not a multiple of four, the last four characters of the shown number include a space, so they differ from the last four digits |
| PaymentForm.ThirteenDigitVisaShown | client/components/billing/AddPaymentMethodDialog.tsx:155-161 | "4111111111111" is shown as "4111 1111 1111 1" |
| PaymentForm.ThirteenDigitVisaAccepted | client/components/billing/AddPaymentMethodDialog.tsx:63-85 | a thirteen-digit number starting with 4 passes the number check and is detected as Visa |
| PaymentForm.ThirteenDigitVisaStoredWithSpace | client/components/billing/AddPaymentMethodDialog.tsx:189 | as written, that number is stored as "11 1" |
| PaymentForm.BuildersDisagree | client/components/billing/AddPaymentMethodDialog.tsx:185-196 | on every accepted number whose digit count is not a multiple of four, the builder as written stores a group space and the corrected one the last four digits typed, so the two differ |
| PaymentForm.ThirteenDigitVisaBuilders | client/components/billing/AddPaymentMethodDialog.tsx:185-196 | every thirteen-digit number starting with 4 is accepted as Visa; the builder as written stores a space, the corrected one its last four digits |
| PaymentForm.LastFourDigits | client/components/billing/AddPaymentMethodDialog.tsx:189 | the corrected value: the last four characters of the number without spaces, which holds no space |
| PaymentForm.LastFourDigitsOfFormatted | client/components/billing/AddPaymentMethodDialog.tsx:189 | for the shown number, the corrected value is the last four digits typed, all digits |
| PaymentForm.LastFourAgreeOnFullGroups | client/components/billing/AddPaymentMethodDialog.tsx:189 | when the digit count is a multiple of four (a 16-digit card), the as-written and corrected values agree |
| PaymentForm.ValidatedCardStoresFourDigits | client/components/billing/AddPaymentMethodDialog.tsx:185-196 | a card number that passes validation is stored as exactly its last four digits |
| PaymentDialog.InitialTab | client/components/billing/AddPaymentMethodDialog.tsx:126-130 | the dialog opens on the PayPal tab exactly when a PayPal method is being edited |
| PaymentDialog.InitialForm | client/components/billing/AddPaymentMethodDialog.tsx:135-142 | the dialog opens with the edited method's name, number and expiry (the number also as e-mail for PayPal), no CVC and "United States"; with nothing edited, the empty form |
| PaymentDialog.Emitted | client/components/billing/AddPaymentMethodDialog.tsx:185-223 | a card submission emits the card method; a PayPal submission emits the PayPal method |
| PaymentDialog.ResetIsConsistent | client/components/billing/AddPaymentMethodDialog.tsx:231-242 | the reset state with no submission running satisfies the dialog invariant |
| PaymentDialog.Dialog.constructor | client/components/billing/AddPaymentMethodDialog.tsx:125-144 | a new dialog has the initial tab and form, no errors, no submission, nothing added, no close request, and satisfies the invariant |
| PaymentDialog.Dialog.ShownNetwork | client/components/billing/AddPaymentMethodDialog.tsx:146-149 | the network shown is the one detected from the current number |
| PaymentDialog.Dialog.ErrorFor | client/components/billing/AddPaymentMethodDialog.tsx:151-153 | a field without a current error shows ""; a field with errors shows the message of its first error |
| PaymentDialog.Dialog.ChangeCardholderName | client/components/billing/AddPaymentMethodDialog.tsx:434-438 | typing a name replaces that field only |
| PaymentDialog.Dialog.ChangeCardNumber | client/components/billing/AddPaymentMethodDialog.tsx:155-161 | the number field becomes the formatted input; nothing else changes |
| PaymentDialog.Dialog.ChangeExpiry | client/components/billing/AddPaymentMethodDialog.tsx:163-169 | the expiry field becomes the formatted input, at most five characters; nothing else changes |
| PaymentDialog.Dialog.ChangeCvc | client/components/billing/AddPaymentMethodDialog.tsx:171-174 | the CVC field becomes the formatted input, keeping the invariant of at most four digits |
| PaymentDialog.Dialog.SelectCountry | client/components/billing/AddPaymentMethodDialog.tsx:460-472 | choosing one of the listed countries replaces that field only |
| PaymentDialog.Dialog.ChangePayPalEmail | client/components/billing/AddPaymentMethodDialog.tsx:540-542 | typing an e-mail replaces that field only |
| PaymentDialog.Dialog.SelectTab | client/components/billing/AddPaymentMethodDialog.tsx:266-269 | a tab button switches the tab and clears the errors, keeping the form |
| PaymentDialog.Dialog.AddCard | client/components/billing/AddPaymentMethodDialog.tsx:176-183 | the errors shown become the card validator's; a submission of the current form starts exactly when there are none |
| PaymentDialog.Dialog.AddPayPal | client/components/billing/AddPaymentMethodDialog.tsx:204-211 | the same with the PayPal validator |
| PaymentDialog.Dialog.ResetForm | client/components/billing/AddPaymentMethodDialog.tsx:231-242 | reset empties the form (country "United States"), clears the errors and selects the card tab |
| PaymentDialog.Dialog.FinishSubmit | client/components/billing/AddPaymentMethodDialog.tsx:183-229 | when the delay ends, the method built from the captured form goes to `onAdd`; the form is reset, closing is requested once, and the submission ends |
| PaymentDialog.Dialog.Close | client/components/billing/AddPaymentMethodDialog.tsx:244-250 | closing resets the form and requests closing once; a running submission is kept |
| PaymentDialog.EmittedFromAcceptedForm | client/components/billing/AddPaymentMethodDialog.tsx:176-229 | every card the dialog emits (through the corrected builder) has a four-character number without spaces, a valid expiry and a given name; every emitted PayPal method holds a matching e-mail |

## Left out

- Pointer coordinates, sizes and widths are integers. The source works with JavaScript numbers, including fractions.
- React's scheduling is not modelled:
  - State updates take effect at once; batching and re-rendering are out of scope.
  - The move/up listeners that the resize effect adds to and removes from the document are the `MouseMove` and `MouseUp` methods, callable in any state. The effect's `isResizing` guard is the first test of `MouseMove`.
- `onUpdate` is assumed to hand the edited block back to the component. The card editor keeps the current block in its own field.
- Asynchrony is split into separate steps:
  - The 800 ms submission delay is the split between `AddCard`/`AddPayPal` and `FinishSubmit`.
  - `FileReader` reads are a `ReadOutcome` parameter, or the `ImageLoaded` step.
  - The one-second interval is `Tick`, and clearing it on unmount is not modelled.
- `Date.now()` and `new Date().toISOString().split("T")[0]` are the parameters `now` and `today` of `FinishSubmit`.
- `console.warn` and `console.error` become the flags `sizeAdvisory` and `readErrorLogged`. The advisory's message text, with the size in MB to two decimals, is not modelled.
- The block factories (`createTitleBlock()` and the others) are outside this model. An option records the kind of block it creates, and the click adds that kind.
- `onOpenChange(false)` is counted in `closeRequests`, and `onAdd` calls are collected in `added`. What the owner does with them is out of scope.
- Markup and decoration are not modelled:
  - icons, class names and the selection ring of the image block;
  - `maxWidth`, `objectFit`, `boxSizing` and `crossOrigin`;
  - the `textAlign` of the image block's containers;
  - the card's colours, margins and radii;
  - the card alt-text fallback "Card image";
  - the upload prompt's contents;
  - the rest of the maintenance page.
- The `maxLength` limits of 19, 5 and 4 on the inputs are enforced by the browser on what can be typed, and are not modelled: the formatters take raw input of any length. For the card number the two limits differ: 19 characters of the shown number, group spaces included, hold 16 digits, so the browser stops typing at 16 digits, while the formatter alone would keep up to 19.
- `onDimensionChange` of the image block is never called in the source, so nothing models it.
- `toLowerCase` is modelled for ASCII letters only. The regular expression `\s` and the white space that `trim()` removes (the cardholder name check and the card-number formatter) are both modelled as space, tab, line feed, carriage return, vertical tab and form feed; other Unicode white space, such as the no-break space, is not. A name made of a single no-break space is rejected by the source and accepted by the model.
- PaymentForm.ErrorMessage: its own contract covers only fields without an error. The first-match result is the separate lemma `ErrorMessageIsFirst`, to keep the recursive function cheap to verify.
- Maintenance.FormatTime carries no contract of its own. Its properties are the lemmas `FormatTimeRoundTrip` and `FormatTimeLength`, and `ElapsedClock.Display` states the round trip and the length.
- PaymentForm.NewCardMethod: stores the corrected last four digits (`LastFourDigits`) rather than line 189's `slice(-4)` of the shown number; see "## Findings". The builder as written is `NewCardMethodAsWritten`, and `BuildersDisagree` shows that the two differ on every accepted number whose digit count is not a multiple of four.
- PaymentDialog.Emitted: a card submission emits the corrected `NewCardMethod`, so for a digit count that is not a multiple of four its stored number differs from the source's (for the thirteen-digit Visa, "1111" instead of "11 1").
- PaymentDialog.Dialog.FinishSubmit: hands `onAdd` the method of `Emitted`, with the same corrected stored number.
- PaymentDialog.EmittedFromAcceptedForm: its claim that the stored number has no spaces holds for the corrected builder only; as written, an accepted number of 13, 14, 15, 17 or 18 digits stores a space.
- In these places the model follows the code:
  - The image advisory is for files strictly larger than 1 MiB.
  - A second handle press while a resize is running replaces the recorded resize rather than being ignored.
  - Only the four corner handles are drawn, although the move handler also knows "e", "w", "n" and "s".
- The buttons that are disabled while a submission runs become preconditions: `!isSubmitting` on `AddCard` and `AddPayPal`. Dismissing the dialog stays possible during a submission, as in the source.

## Findings

| source | as written | input that shows it | evidently intended | confidence | as-written member | corrected member |
|---|---|---|---|---|---|---|
| client/components/billing/AddPaymentMethodDialog.tsx:189 | the stored number is `formData.cardNumber.slice(-4)`, the last four characters of the number as shown, with its group spaces | a thirteen-digit Visa "4111111111111" passes validation, is shown as "4111 1111 1111 1" and is stored as "11 1"; any accepted number whose digit count is not a multiple of four stores a space | the last four digits of the card number | not executed | PaymentForm.LastFourChars, PaymentForm.LastFourCharsKeepsSpace, PaymentForm.ThirteenDigitVisaStoredWithSpace, PaymentForm.NewCardMethodAsWritten, PaymentForm.BuildersDisagree | PaymentForm.LastFourDigits, PaymentForm.LastFourDigitsOfFormatted, PaymentForm.ValidatedCardStoresFourDigits |

The dialog model builds card methods with the corrected `LastFourDigits`, through `NewCardMethod`.
