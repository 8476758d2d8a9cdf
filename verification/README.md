# MyViewLibrary input widgets, modelled in Dafny

MyViewLibrary offers two SwiftUI input widgets. This project models the state
each one keeps and how its buttons and handlers change that state. It also
proves what those changes amount to.

- `Keypad` (keypad.dfy) models `PriceField`, a calculator-style keypad. It edits
  an integer `value` bound from outside. The buttons are the digits 0-9, "00",
  "-/+" (only when `positiveOnly` is off) and reset (归零). Tapping the amount
  toggles `isEditing`, which can hide the keypad. The pure function `Press` gives
  the effect of one button and `PressAll` the effect of several in a row. The
  class `PriceField` has one method per button. The lemmas show that digit taps
  spell a decimal number, that sign rules hold, and that with `positiveOnly` a
  non-negative amount stays non-negative.
- `Suggestions` (suggestions.dfy) models `SearchSuggestionTextField`,
  `SearchSuggestionTextPage` and `SearchSuggestionTextFieldButton`. Each keeps a
  draft `editingText` next to the committed `text`. The committed text is a
  `TextBinding` object shared by reference, as a SwiftUI `@Binding` is, so a
  button and the page it presents write to the same text. The chip list
  (`Chips`) and the chip row with its highlight (`ChipRow`) are pure functions
  of the suggestions and the committed text.

`value` is an unbounded mathematical `int`. The Swift multiplications and negation trap on
`Int` overflow, and the model does not include that trap (see "Left out").

Two behaviours a reader might not expect:
- Choosing a chip in the inline field takes focus away only when
  `showSuggestionOnlyWhenEditing` is set (SearchSuggestionTextField.swift:85-87).
  Otherwise focus is left as it was.
- The page also highlights the chip equal to the committed text (:115).

## Model

| member | source | states |
|---|---|---|
| Keypad.Press | Sources/MyViewLibrary/PriceField.swift:64-117 | A digit on zero gives magnitude d: non-negative with positiveOnly, non-positive otherwise, so 0 on 0 stays 0. A digit on a non-zero value keeps its sign and makes the magnitude 10 times its old magnitude plus d. "00" keeps the sign and multiplies the magnitude by 100, so 0 stays 0. "-/+" flips the sign and keeps the magnitude. Reset gives 0. |
| Keypad.PressAll | Sources/MyViewLibrary/PriceField.swift:64-117 | Pressing no keys leaves the value unchanged. A run of keys that ends with reset ends at 0. |
| Keypad.PressAllConcat | Sources/MyViewLibrary/PriceField.swift:64-117 | Pressing the keys of a and then the keys of b gives the same value as pressing a + b. |
| Keypad.SignToggleInvolution | Sources/MyViewLibrary/PriceField.swift:72-78 | "-/+" pressed twice gives back the original value. |
| Keypad.ResetIdempotent | Sources/MyViewLibrary/PriceField.swift:79-84 | Reset gives 0 from any value, and pressing it again changes nothing. |
| Keypad.KeypadRows | Sources/MyViewLibrary/PriceField.swift:48-86 | The keypad has four rows: 1 2 3, 4 5 6 and 7 8 9, then "00", 0, "-/+" when positiveOnly is off, and reset last. |
| Keypad.OfferedKeys | Sources/MyViewLibrary/PriceField.swift:47-86 | Every digit, "00" and reset are on the keypad. "-/+" is on it if and only if positiveOnly is off. |
| Keypad.PositiveOnlyStaysNonNegative | Sources/MyViewLibrary/PriceField.swift:64-117 | With positiveOnly, any sequence of buttons on the keypad keeps a non-negative value non-negative. |
| Keypad.DecimalDigits | Sources/MyViewLibrary/PriceField.swift:113-116 | The decimal digits of n are empty exactly for 0 and never start with 0. |
| Keypad.DigitsThenValue | Sources/MyViewLibrary/PriceField.swift:113-116 | The number spelled by the decimal digits of n is n. |
| Keypad.ValueThenDigits | Sources/MyViewLibrary/PriceField.swift:113-116 | Digits without a leading zero are the decimal digits of the number they spell. |
| Keypad.TapsFromZero | Sources/MyViewLibrary/PriceField.swift:107-117 | Digits tapped from 0 give the number they spell. It is positive with positiveOnly and negative otherwise. Leading zeros leave 0. |
| Keypad.TapsFromNonZero | Sources/MyViewLibrary/PriceField.swift:113-117 | Digits tapped on a non-zero v keep v's sign. The magnitude becomes the old magnitude times 10^n plus the number the digits spell. |
| Keypad.NegativeStartStaysNegative | Sources/MyViewLibrary/PriceField.swift:107-117 | positiveOnly does not correct a negative bound value: for every negative start, any digits tapped on it leave it negative. |
| Keypad.MinusOneThenOne | Sources/MyViewLibrary/PriceField.swift:107-117 | With positiveOnly set, a bound value of -1 followed by the digit 1 gives -11. |
| Keypad.EnteredAmount | Sources/MyViewLibrary/PriceField.swift:107-117 | Digits d1..dn with d1 != 0 tapped from 0 give an amount whose decimal digits are d1..dn. The amount is negative if and only if positiveOnly is off, and positive if and only if it is on. |
| Keypad.OneTwoThree | Sources/MyViewLibrary/PriceField.swift:107-117 | Tapping 1, 2, 3 from 0 gives -123, or 123 with positiveOnly. |
| Keypad.PriceField.constructor | Sources/MyViewLibrary/PriceField.swift:15-29 | Binds the value and stores the configuration. positiveOnly, isEditing and onlyShowKeypadWhenEditing default to false. Editing starts off whatever isEditing argument is passed, so the keypad shows exactly when it is not limited to editing. |
| Keypad.PriceField.KeypadVisible | Sources/MyViewLibrary/PriceField.swift:47 | The keypad is always drawn unless onlyShowKeypadWhenEditing is set. When it is set, the keypad is drawn exactly while editing. |
| Keypad.PriceField.CanTap | Sources/MyViewLibrary/PriceField.swift:47-86 | A button can be tapped if and only if the keypad is drawn and the button is on it: any button but "-/+", and "-/+" only when positiveOnly is off. |
| Keypad.PriceField.TapAmount | Sources/MyViewLibrary/PriceField.swift:36-47 | Toggles isEditing and leaves the value alone. The keypad is then visible if and only if it is not limited to editing or editing is now on. |
| Keypad.PriceField.TapDigit | Sources/MyViewLibrary/PriceField.swift:105-122 | Needs the keypad on screen. The new value is Press of the old value and the digit. With positiveOnly, a non-negative value stays non-negative. Emits one haptic impact. |
| Keypad.PriceField.TapDoubleZero | Sources/MyViewLibrary/PriceField.swift:64-69 | Needs the keypad on screen. The new value is Press of the old value and "00". The sign is kept. Emits one haptic impact. |
| Keypad.PriceField.TapSignToggle | Sources/MyViewLibrary/PriceField.swift:72-78 | Can be tapped only when positiveOnly is off and the keypad is shown. Negates the value and emits no haptic impact. |
| Keypad.PriceField.TapReset | Sources/MyViewLibrary/PriceField.swift:79-84 | Needs the keypad on screen. Sets the value to 0 and emits one haptic impact. |
| Suggestions.TextBinding.constructor | Sources/MyViewLibrary/SearchSuggestionTextField.swift:12 | The committed text cell starts with the given string. |
| Suggestions.Chips | Sources/MyViewLibrary/SearchSuggestionTextField.swift:56-57 | The chips hold every non-empty suggestion as often as it occurs, and never the empty string. |
| Suggestions.ChipsConcat | Sources/MyViewLibrary/SearchSuggestionTextField.swift:113-114 | Filtering keeps order: the chips of a + b are the chips of a followed by the chips of b. |
| Suggestions.ChipsOfNonEmpty | Sources/MyViewLibrary/SearchSuggestionTextField.swift:56-57 | Suggestions with no empty string become chips unchanged. |
| Suggestions.ChipRow | Sources/MyViewLibrary/SearchSuggestionTextField.swift:56-72 | The row has one chip per entry of Chips, in the same order. A chip is highlighted if and only if it equals the committed text. |
| Suggestions.HighlightCount | Sources/MyViewLibrary/SearchSuggestionTextField.swift:113-129 | The number of highlighted chips equals how often the committed text occurs among the suggestions. It is 0 when the committed text is empty. |
| Suggestions.ChosenChipHighlighted | Sources/MyViewLibrary/SearchSuggestionTextField.swift:115-118 | Once chip s is committed, at least one chip is highlighted, and every highlighted chip is s. |
| Suggestions.SuggestionField.constructor | Sources/MyViewLibrary/SearchSuggestionTextField.swift:17-28 | Binds the text and stores suggestions and showSuggestionOnlyWhenEditing, which defaults to true. The draft starts empty and focus starts off. |
| Suggestions.SuggestionField.ChipRowVisible | Sources/MyViewLibrary/SearchSuggestionTextField.swift:54 | The chip row is always drawn unless showSuggestionOnlyWhenEditing is set. When it is set, the row is drawn exactly while the field has focus. |
| Suggestions.SuggestionField.VisibleChips | Sources/MyViewLibrary/SearchSuggestionTextField.swift:54-74 | No chips while the row is hidden. Otherwise there is one chip per non-empty suggestion, in order, highlighted if and only if it equals the committed text. The draft plays no part. |
| Suggestions.SuggestionField.OnAppear | Sources/MyViewLibrary/SearchSuggestionTextField.swift:77-79 | On appearing, the draft equals the committed text. |
| Suggestions.SuggestionField.EditDraft | Sources/MyViewLibrary/SearchSuggestionTextField.swift:37 | Typing changes only the draft. The chips on screen, with their highlight, do not change. |
| Suggestions.SuggestionField.SetFocused | Sources/MyViewLibrary/SearchSuggestionTextField.swift:54 | Sets focus. The chip row is then visible if and only if it is not limited to editing or the field has focus. |
| Suggestions.SuggestionField.OnSubmit | Sources/MyViewLibrary/SearchSuggestionTextField.swift:39-41 | Submitting copies the draft into the committed text. Focus is unchanged. |
| Suggestions.SuggestionField.SetText | Sources/MyViewLibrary/SearchSuggestionTextField.swift:82-88 | Choosing a visible chip s sets text and draft to s. Focus is cleared if showSuggestionOnlyWhenEditing is set and unchanged otherwise, so the row stays visible if and only if it is not limited to editing. |
| Suggestions.SuggestionPage.constructor | Sources/MyViewLibrary/SearchSuggestionTextField.swift:95-102 | Binds the text and stores the suggestions. The draft starts empty, focus starts off and the page is not dismissed. |
| Suggestions.SuggestionPage.InteractiveDismissDisabled | Sources/MyViewLibrary/SearchSuggestionTextField.swift:165 | The sheet cannot be swiped away exactly while the text field has focus; SwipeDismiss requires it to be false. |
| Suggestions.SuggestionPage.VisibleChips | Sources/MyViewLibrary/SearchSuggestionTextField.swift:111-131 | The page always draws one chip per non-empty suggestion, in order, highlighted if and only if it equals the committed text. The draft plays no part. |
| Suggestions.SuggestionPage.OnAppear | Sources/MyViewLibrary/SearchSuggestionTextField.swift:162-164 | On appearing, the draft equals the committed text. Like every page handler below, it runs only on a page not yet dismissed. |
| Suggestions.SuggestionPage.EditDraft | Sources/MyViewLibrary/SearchSuggestionTextField.swift:136 | Typing changes only the draft. The chips and their highlight do not change. |
| Suggestions.SuggestionPage.SetFocused | Sources/MyViewLibrary/SearchSuggestionTextField.swift:165 | Sets focus. Interactive dismissal is disabled exactly while focused. |
| Suggestions.SuggestionPage.OnSubmit | Sources/MyViewLibrary/SearchSuggestionTextField.swift:138-141 | Submitting copies the draft into the committed text and dismisses the page. Focus is unchanged. |
| Suggestions.SuggestionPage.SetText | Sources/MyViewLibrary/SearchSuggestionTextField.swift:168-173 | Choosing chip s sets text and draft to s, clears focus and dismisses the page. |
| Suggestions.SuggestionPage.Clear | Sources/MyViewLibrary/SearchSuggestionTextField.swift:142-146 | The clear button empties text and draft and sets focus, which disables interactive dismissal. It does not dismiss the page. |
| Suggestions.SuggestionFieldButton.constructor | Sources/MyViewLibrary/SearchSuggestionTextField.swift:181-190 | Binds the text and stores the suggestions. isEditing starts false and no page is presented. |
| Suggestions.SuggestionFieldButton.Tap | Sources/MyViewLibrary/SearchSuggestionTextField.swift:193-207 | With no page presented, a tap sets isEditing. It presents a new page bound to the same text and suggestions, with an empty draft, no focus and not dismissed. |
| Suggestions.SuggestionFieldButton.SheetDismissed | Sources/MyViewLibrary/SearchSuggestionTextField.swift:205-206 | Once the presented page has dismissed itself, dismissal writes the sheet's isEditing flag back to false and the button drops the page. The dismissed page can run no handler again. |
| Suggestions.SuggestionFieldButton.SwipeDismiss | Sources/MyViewLibrary/SearchSuggestionTextField.swift:165 | The presented page can be swiped away only while its field is unfocused. The sheet's isEditing flag goes back to false and the page is marked dismissed with its draft as it was, so no handler can commit that draft. The committed text is unchanged. |
| Suggestions.FieldAppearThenSubmit | Sources/MyViewLibrary/SearchSuggestionTextField.swift:37-79 | Appearing and then submitting with no edits leaves the committed text unchanged. |
| Suggestions.PageAppearThenSubmit | Sources/MyViewLibrary/SearchSuggestionTextField.swift:136-164 | On a page not yet dismissed, appearing and then submitting with no edits leaves the committed text unchanged and dismisses the page. |
| Suggestions.SwipeAwayDraft | Sources/MyViewLibrary/SearchSuggestionTextField.swift:165 | A draft typed on a presented page and swiped away after the field loses focus is discarded: the button's binding keeps its text, no page is presented, and the page still holding the draft is dismissed, so no later handler can commit it. |
| Suggestions.ChooseThroughButton | Sources/MyViewLibrary/SearchSuggestionTextField.swift:193-207 | Starting with no page presented, a chip chosen on the page that a button presents is written to the button's own binding. The page dismisses itself, so the button ends with isEditing false and no page presented. |
| Suggestions.ChooseSecondSuggestion | Sources/MyViewLibrary/SearchSuggestionTextField.swift:113-173 | With suggestions ["A", "B"] and "A" committed, choosing "B" on the page sets text and draft to "B", clears focus, dismisses the page and moves the highlight from "A" to "B". |

## Left out

- Swift `Int` overflow: `value` is an unbounded `int`. In Swift, a digit or "00" tap that would overflow traps, and so does "-/+" on `Int.min`, which digit entry can reach. In the model each of these gives a number of larger magnitude.
- Haptic feedback (`UIImpactFeedbackGenerator`) is a platform call. It is modelled only as the ghost counter `impacts`.
- A `positiveOnly` field whose bound value is already negative is not normalised. Digit taps then keep it negative. The non-negativity results therefore assume a non-negative start, as the source gives nothing stronger.
- Focus and presentation are reduced to plain fields. `SetFocused` stands in for the user moving focus. `SheetDismissed` stands in for SwiftUI clearing the sheet's `isPresented` binding after `dismiss()`, and `SwipeDismiss` for the user swiping the sheet down. A SwiftUI `TextField` normally ends editing when Return is pressed; `OnSubmit` models only the submit handler, and that platform step is a separate `SetFocused(false)` (with the default `showSuggestionOnlyWhenEditing`, the inline chip row then hides).
- Strings are compared as sequences of code points, so inputs are taken to be normalised. Swift's `String ==` treats canonically equivalent strings as equal. For example, "e" followed by a combining acute accent equals "é" in Swift, but not in `ChipRow`, `VisibleChips` or `HighlightCount`.
- The optional `label` of the inline field and of the button is not modelled. It only affects layout.
- Layout is left out: the `label` closure and label text, `CurrencyText` formatting, `FlowHStack`, button styles, colours and padding.
- Layout-direction mirroring of the text field (SearchSuggestionTextField.swift:42-52) is cosmetic.
- The localised headings, the "no suggestions" notice (:108-110) and the preview structs are rendering only.
- `ForEach(id: \.self)` identity with duplicate suggestions is SwiftUI diffing. The chip row is a plain filtered sequence with one chip per occurrence.
