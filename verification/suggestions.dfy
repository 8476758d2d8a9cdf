/** The text field with suggestion chips of SearchSuggestionTextField.swift: an
    inline field, a full page shown as a sheet, and the button that presents
    the page. Each keeps a draft `editingText` apart from the committed `text`,
    which is owned outside and shared by binding. */
module Suggestions {

  /** The committed text: a string cell owned by the embedding view and shared
      by every view bound to it. */
  class TextBinding {
    var value: string

    constructor (value: string)
      ensures this.value == value
    {
      this.value := value;
    }
  }

  // ---------------------------------------------------------------------------
  // Chips derived from the suggestions and the committed text

  /** The suggestions that get a chip: every non-empty one, in order. */
  function Chips(suggestions: seq<string>): (r: seq<string>)
    ensures forall s :: multiset(r)[s] == if s == "" then 0 else multiset(suggestions)[s]
  {
    if suggestions == [] then []
    else
      assert suggestions == [suggestions[0]] + suggestions[1..];
      (if suggestions[0] == "" then [] else [suggestions[0]]) + Chips(suggestions[1..])
  }

  /** Filtering keeps order: the chips of a concatenation are the chips of its
      parts, one after the other. */
  lemma {:induction false} ChipsConcat(a: seq<string>, b: seq<string>)
    ensures Chips(a + b) == Chips(a) + Chips(b)
  {
    if a == [] {
      assert a + b == b;
    } else {
      assert (a + b)[0] == a[0] && (a + b)[1..] == a[1..] + b;
      ChipsConcat(a[1..], b);
    }
  }

  /** Suggestions without an empty string all become chips, unchanged. */
  lemma {:induction false} ChipsOfNonEmpty(suggestions: seq<string>)
    requires forall i :: 0 <= i < |suggestions| ==> suggestions[i] != ""
    ensures Chips(suggestions) == suggestions
  {
    if suggestions != [] {
      ChipsOfNonEmpty(suggestions[1..]);
    }
  }

  /** A chip as drawn: its suggestion, and whether it is drawn prominent. */
  datatype Chip = Chip(suggestion: string, highlighted: bool)

  /** The chip row for the committed text `text`: one chip per non-empty
      suggestion, highlighted when it equals the committed text. */
  function ChipRow(suggestions: seq<string>, text: string): (row: seq<Chip>)
    ensures |row| == |Chips(suggestions)|
    ensures forall i :: 0 <= i < |row| ==>
      row[i].suggestion == Chips(suggestions)[i] && (row[i].highlighted <==> row[i].suggestion == text)
  {
    if suggestions == [] then []
    else
      var head := if suggestions[0] == "" then [] else [Chip(suggestions[0], suggestions[0] == text)];
      head + ChipRow(suggestions[1..], text)
  }

  /** The number of chips drawn highlighted. */
  function HighlightedCount(row: seq<Chip>): nat
  {
    if row == [] then 0 else (if row[0].highlighted then 1 else 0) + HighlightedCount(row[1..])
  }

  /** How often `x` occurs in `xs`. */
  function Occurrences(xs: seq<string>, x: string): nat
  {
    if xs == [] then 0 else (if xs[0] == x then 1 else 0) + Occurrences(xs[1..], x)
  }

  lemma {:induction false} OccurrencesMultiplicity(xs: seq<string>, x: string)
    ensures Occurrences(xs, x) == multiset(xs)[x]
  {
    if xs != [] {
      assert xs == [xs[0]] + xs[1..];
      OccurrencesMultiplicity(xs[1..], x);
    }
  }

  /** As many chips are highlighted as the committed text occurs among the
      suggestions, and none when it is empty. */
  lemma {:induction false} HighlightCount(suggestions: seq<string>, text: string)
    ensures HighlightedCount(ChipRow(suggestions, text))
         == if text == "" then 0 else Occurrences(suggestions, text)
  {
    if suggestions != [] {
      var rest := suggestions[1..];
      HighlightCount(rest, text);
      var row := ChipRow(suggestions, text);
      if suggestions[0] != "" {
        assert row[1..] == ChipRow(rest, text);
      } else {
        assert row == ChipRow(rest, text);
      }
    }
  }

  /** After a chip is chosen, some chip is highlighted, and only chips for
      that same suggestion are. */
  lemma ChosenChipHighlighted(suggestions: seq<string>, s: string)
    requires s in Chips(suggestions)
    ensures HighlightedCount(ChipRow(suggestions, s)) > 0
    ensures forall c :: c in ChipRow(suggestions, s) && c.highlighted ==> c.suggestion == s
  {
    HighlightCount(suggestions, s);
    OccurrencesMultiplicity(suggestions, s);
    assert multiset(Chips(suggestions))[s] > 0;
  }

  // ---------------------------------------------------------------------------
  // The inline field

  class SuggestionField {
    const text: TextBinding
    const suggestions: seq<string>
    const showSuggestionOnlyWhenEditing: bool
    var editingText: string
    var focused: bool

    constructor (text: TextBinding, suggestions: seq<string>, showSuggestionOnlyWhenEditing: bool := true)
      ensures this.text == text && this.suggestions == suggestions
      ensures this.showSuggestionOnlyWhenEditing == showSuggestionOnlyWhenEditing
      ensures editingText == "" && !focused
    {
      this.text := text;
      this.suggestions := suggestions;
      this.showSuggestionOnlyWhenEditing := showSuggestionOnlyWhenEditing;
      editingText := "";
      focused := false;
    }

    /** The chip row is drawn always, or, when configured to appear only
        while editing, exactly while the field has focus. */
    predicate ChipRowVisible()
      reads this
    {
      !showSuggestionOnlyWhenEditing || focused
    }

    /** The chips on screen: none while the row is hidden, otherwise one per
        non-empty suggestion, highlighted against the committed text and never
        against the draft. */
    function VisibleChips(): (row: seq<Chip>)
      reads this, text
      ensures |row| == if ChipRowVisible() then |Chips(suggestions)| else 0
      ensures forall i :: 0 <= i < |row| ==>
        row[i].suggestion == Chips(suggestions)[i] && (row[i].highlighted <==> row[i].suggestion == text.value)
    {
      if ChipRowVisible() then ChipRow(suggestions, text.value) else []
    }

    /** On appearing, the draft starts from the committed text. */
    method OnAppear()
      modifies this`editingText
      ensures editingText == text.value
    {
      editingText := text.value;
    }

    /** Typing changes the draft only; chips keep following the committed text. */
    method EditDraft(draft: string)
      modifies this`editingText
      ensures editingText == draft
      ensures VisibleChips() == old(VisibleChips())
    {
      editingText := draft;
    }

    /** The user moves focus into or out of the field. */
    method SetFocused(f: bool)
      modifies this`focused
      ensures focused == f
      ensures ChipRowVisible() <==> !showSuggestionOnlyWhenEditing || f
    {
      focused := f;
    }

    /** Submitting commits the draft; the field keeps its focus. */
    method OnSubmit()
      modifies text
      ensures text.value == editingText
      ensures focused == old(focused)
    {
      text.value := editingText;
    }

    /** Tapping chip `s` writes it to both buffers and, when chips are shown
        only while editing, takes focus away, which hides the chips. */
    method SetText(s: string)
      requires ChipRowVisible() && s in Chips(suggestions)
      modifies text, this`editingText, this`focused
      ensures text.value == s && editingText == s
      ensures focused == (!showSuggestionOnlyWhenEditing && old(focused))
      ensures ChipRowVisible() <==> !showSuggestionOnlyWhenEditing
    {
      text.value := s;
      editingText := s;
      if showSuggestionOnlyWhenEditing {
        focused := false;
      }
    }
  }

  // ---------------------------------------------------------------------------
  // The full page

  /** Once `dismissed` is set the sheet's view is gone: none of its handlers
      can run again, so a dismissed page never writes the binding. */
  class SuggestionPage {
    const text: TextBinding
    const suggestions: seq<string>
    var editingText: string
    var focused: bool
    var dismissed: bool

    constructor (text: TextBinding, suggestions: seq<string>)
      ensures this.text == text && this.suggestions == suggestions
      ensures editingText == "" && !focused && !dismissed
    {
      this.text := text;
      this.suggestions := suggestions;
      editingText := "";
      focused := false;
      dismissed := false;
    }

    /** The sheet cannot be swiped away while the text field has focus. */
    predicate InteractiveDismissDisabled()
      reads this
    {
      focused
    }

    /** The page always draws its chips: one per non-empty suggestion,
        highlighted against the committed text and never against the draft. */
    function VisibleChips(): (row: seq<Chip>)
      reads this, text
      ensures |row| == |Chips(suggestions)|
      ensures forall i :: 0 <= i < |row| ==>
        row[i].suggestion == Chips(suggestions)[i] && (row[i].highlighted <==> row[i].suggestion == text.value)
    {
      ChipRow(suggestions, text.value)
    }

    method OnAppear()
      requires !dismissed
      modifies this`editingText
      ensures editingText == text.value
    {
      editingText := text.value;
    }

    method EditDraft(draft: string)
      requires !dismissed
      modifies this`editingText
      ensures editingText == draft
      ensures VisibleChips() == old(VisibleChips())
    {
      editingText := draft;
    }

    method SetFocused(f: bool)
      requires !dismissed
      modifies this`focused
      ensures focused == f
      ensures InteractiveDismissDisabled() <==> f
    {
      focused := f;
    }

    /** Submitting commits the draft and dismisses the page. */
    method OnSubmit()
      requires !dismissed
      modifies text, this`dismissed
      ensures text.value == editingText && dismissed
      ensures focused == old(focused)
    {
      text.value := editingText;
      dismissed := true;
    }

    /** Tapping chip `s` writes it to both buffers, takes focus away and
        dismisses the page. */
    method SetText(s: string)
      requires !dismissed && s in Chips(suggestions)
      modifies text, this`editingText, this`focused, this`dismissed
      ensures text.value == s && editingText == s
      ensures !focused && dismissed
    {
      text.value := s;
      editingText := s;
      focused := false;
      dismissed := true;
    }

    /** The clear button empties both buffers and focuses the field, so the
        page stays up and cannot be swiped away. */
    method Clear()
      requires !dismissed
      modifies text, this`editingText, this`focused
      ensures text.value == "" && editingText == ""
      ensures focused && InteractiveDismissDisabled()
      ensures dismissed == old(dismissed)
    {
      text.value := "";
      editingText := "";
      focused := true;
    }
  }

  // ---------------------------------------------------------------------------
  // The button that presents the page

  /** `isEditing` is the sheet's presentation flag; `sheet` is the page it
      presents while set. */
  class SuggestionFieldButton {
    const text: TextBinding
    const suggestions: seq<string>
    var isEditing: bool
    var sheet: SuggestionPage?

    constructor (text: TextBinding, suggestions: seq<string>)
      ensures this.text == text && this.suggestions == suggestions
      ensures !isEditing && sheet == null
    {
      this.text := text;
      this.suggestions := suggestions;
      isEditing := false;
      sheet := null;
    }

    /** A tap sets `isEditing`, which presents a new page bound to the same
        committed text and the same suggestions. */
    method Tap() returns (page: SuggestionPage)
      requires sheet == null
      modifies this`isEditing, this`sheet
      ensures isEditing && sheet == page
      ensures fresh(page) && page.text == text && page.suggestions == suggestions
      ensures page.editingText == "" && !page.focused && !page.dismissed
    {
      isEditing := true;
      page := new SuggestionPage(text, suggestions);
      sheet := page;
    }

    /** The presented page dismissed itself: dismissal writes the sheet's
        presentation flag back to false and the page goes away. */
    method SheetDismissed()
      requires sheet != null && sheet.dismissed
      modifies this`isEditing, this`sheet
      ensures !isEditing && sheet == null
    {
      isEditing := false;
      sheet := null;
    }

    /** Swiping the presented page down dismisses it without committing
        anything; the page forbids this while its text field has focus. The
        draft goes away with the page and the committed text stays as it was. */
    method SwipeDismiss()
      requires sheet != null && !sheet.InteractiveDismissDisabled()
      modifies this`isEditing, this`sheet, sheet`dismissed
      ensures !isEditing && sheet == null
      ensures old(sheet).dismissed && old(sheet).editingText == old(sheet.editingText)
      ensures text.value == old(text.value)
    {
      sheet.dismissed := true;
      isEditing := false;
      sheet := null;
    }
  }

  // ---------------------------------------------------------------------------
  // Sessions

  /** Appearing and submitting without typing leaves the committed text as it was. */
  method FieldAppearThenSubmit(field: SuggestionField)
    modifies field, field.text
    ensures field.text.value == old(field.text.value)
    ensures field.editingText == field.text.value
  {
    field.OnAppear();
    field.OnSubmit();
  }

  /** The same on the page, which is then dismissed. */
  method PageAppearThenSubmit(page: SuggestionPage)
    requires !page.dismissed
    modifies page, page.text
    ensures page.text.value == old(page.text.value)
    ensures page.dismissed
  {
    page.OnAppear();
    page.OnSubmit();
  }

  /** A chip chosen on the page a button presents is written to the button's
      own binding. */
  method ChooseThroughButton(button: SuggestionFieldButton, s: string)
    requires button.sheet == null && s in Chips(button.suggestions)
    modifies button, button.text
    ensures button.text.value == s && !button.isEditing && button.sheet == null
  {
    var page := button.Tap();
    page.OnAppear();
    page.SetText(s);
    button.SheetDismissed();
  }

  /** A draft typed on a presented page and then swiped away, once the field
      has lost focus, is discarded: the button's binding keeps its text and the
      page holding the draft is dismissed, so nothing can commit it later. */
  method SwipeAwayDraft(button: SuggestionFieldButton, draft: string) returns (page: SuggestionPage)
    requires button.sheet == null
    modifies button, button.text
    ensures button.text.value == old(button.text.value)
    ensures !button.isEditing && button.sheet == null
    ensures fresh(page) && page.text == button.text
    ensures page.dismissed && page.editingText == draft
  {
    page := button.Tap();
    page.OnAppear();
    page.SetFocused(true);
    page.EditDraft(draft);
    page.SetFocused(false);
    button.SwipeDismiss();
  }

  /** Suggestions ["A", "B"] with "A" committed: choosing "B" commits it,
      dismisses the page and moves the highlight to "B". */
  method ChooseSecondSuggestion() returns (page: SuggestionPage)
    ensures fresh(page) && fresh(page.text) && page.suggestions == ["A", "B"]
    ensures page.text.value == "B" && page.editingText == "B"
    ensures page.dismissed && !page.focused
    ensures page.VisibleChips() == [Chip("A", false), Chip("B", true)]
  {
    var binding := new TextBinding("A");
    var suggestions := ["A", "B"];
    page := new SuggestionPage(binding, suggestions);
    page.OnAppear();
    assert page.editingText == "A";
    ChipsOfNonEmpty(suggestions);
    page.SetText("B");
  }
}
