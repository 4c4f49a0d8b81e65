/**
 * The add/edit form (src/options/components/PromptForm.tsx): how a submitted
 * form becomes a prompt, and how the form's fields are loaded and reset.
 */
module PromptForm {
  import opened Wrappers
  import opened Strings
  import opened Storage

  /** The first entry of the colour palette, the colour of a new prompt. */
  const DefaultColor: string := "#10a37f"
  /** The first entry of the icon list, the icon of a new prompt. */
  const DefaultIcon: string := "text_snippet"
  /** How many space-separated words of the text make up a derived name. */
  const NameWords: nat := 3
  /** The alert shown for a form whose text is blank. */
  const EmptyTextMessage: string := "Prompt text cannot be empty"

  /** The first three `' '`-separated pieces of `t` (fewer when `t` has fewer). */
  function NamePieces(t: string): (r: seq<string>)
    ensures 1 <= |r| <= NameWords
    ensures forall i :: 0 <= i < |r| ==> ' ' !in r[i]
  {
    var pieces := Split(t, ' ');
    pieces[..if |pieces| < NameWords then |pieces| else NameWords]
  }

  /** The name given to a prompt submitted without one: its first words and an ellipsis. */
  function DerivedName(t: string): (r: string)
    ensures |r| >= 3 && r[|r| - 3..] == "..."
  {
    Join(NamePieces(t), ' ') + "..."
  }

  /**
   * The words kept by a derived name are the text up to its third space: a
   * prefix of the text with at most two spaces, the whole text when it has no
   * more than two, and otherwise a prefix that the third space follows.
   */
  lemma DerivedNameShape(t: string)
    ensures var w := DerivedName(t)[..|DerivedName(t)| - 3];
      && w <= t
      && Count(w, ' ') <= 2
      && (Count(t, ' ') <= 2 ==> w == t)
      && (Count(t, ' ') > 2 ==> Count(w, ' ') == 2 && w + " " <= t)
  {
    var pieces := Split(t, ' ');
    var k := if |pieces| < NameWords then |pieces| else NameWords;
    var w := Join(pieces[..k], ' ');
    assert DerivedName(t)[..|DerivedName(t)| - 3] == w;
    JoinSplit(t, ' ');
    JoinPrefix(pieces, k, ' ');
    CountJoin(pieces[..k], ' ');
    if Count(t, ' ') <= 2 {
      assert pieces[..k] == pieces;
    } else {
      JoinPrefix(pieces, 4, ' ');
      assert pieces[..4] == pieces[..3] + [pieces[3]];
      JoinSnoc(pieces[..3], pieces[3], ' ');
      assert w + " " <= Join(pieces[..4], ' ');
    }
  }

  /** The form's input fields. */
  datatype FormFields = FormFields(name: string, text: string, category: string, color: string, icon: string)

  /** The blank form: empty inputs, the first palette colour and the first icon. */
  const BlankForm: FormFields := FormFields("", "", "", DefaultColor, DefaultIcon)

  /**
   * handleSubmit's prompt. A text that trims to nothing is refused with the
   * alert; otherwise the text and category are stored trimmed, colour and icon
   * as they are, the name trimmed or (when blank) derived from the text, and
   * the id kept from the prompt being edited or taken fresh for a new one.
   */
  function BuildPrompt(f: FormFields, initialPrompt: Option<Prompt>, freshId: string): (r: Result<Prompt>)
    ensures r.Err? <==> Trim(f.text) == ""
    ensures r.Err? ==> r.message == EmptyTextMessage
    ensures r.Ok? ==>
      && r.value.text == Trim(f.text) && r.value.category == Trim(f.category)
      && r.value.color == f.color && r.value.icon == f.icon
      && r.value.id == (if initialPrompt.Some? then initialPrompt.value.id else freshId)
      && (Trim(f.name) != "" ==> r.value.name == Trim(f.name))
      && (Trim(f.name) == "" ==> r.value.name == DerivedName(Trim(f.text)))
  {
    if Trim(f.text) == "" then Err(EmptyTextMessage)
    else
      var promptName := if Trim(f.name) != "" then Trim(f.name) else DerivedName(Trim(f.text));
      Ok(Prompt(if initialPrompt.Some? then initialPrompt.value.id else freshId,
                promptName, Trim(f.text), Trim(f.category), f.color, f.icon))
  }

  /** A form is refused exactly when its text is whitespace only. */
  lemma RefusedIffBlank(f: FormFields, initialPrompt: Option<Prompt>, freshId: string)
    ensures BuildPrompt(f, initialPrompt, freshId).Err? <==> forall i :: 0 <= i < |f.text| ==> IsWhitespace(f.text[i])
  {
    TrimEmptyIff(f.text);
  }

  /** A stored prompt's name, text and category neither begin nor end with whitespace, and its name is never empty. */
  lemma BuiltPromptIsTrimmed(f: FormFields, initialPrompt: Option<Prompt>, freshId: string)
    requires BuildPrompt(f, initialPrompt, freshId).Ok?
    ensures var p := BuildPrompt(f, initialPrompt, freshId).value;
      Trim(p.name) == p.name && p.name != "" && Trim(p.text) == p.text && Trim(p.category) == p.category
  {
    var p := BuildPrompt(f, initialPrompt, freshId).value;
    TrimIdempotent(f.text);
    TrimIdempotent(f.category);
    TrimIdempotent(f.name);
    if Trim(f.name) == "" {
      var t := Trim(f.text);
      DerivedNameShape(t);
      var w := p.name[..|p.name| - 3];
      if w != [] {
        assert p.name[0] == w[0] == t[0];
      }
      assert p.name[|p.name| - 1] == '.';
      TrimFixed(p.name);
    }
  }

  /** The form as the load effect fills it for an edited prompt. */
  function FieldsOf(p: Prompt): (f: FormFields)
    ensures f.name == p.name && f.text == p.text && f.category == p.category
    ensures f.color == p.color && f.icon == p.icon
  {
    FormFields(p.name, p.text, p.category, p.color, p.icon)
  }

  /** Opening a stored prompt for editing and submitting it unchanged stores the same prompt. */
  lemma ResubmitUnchanged(f: FormFields, initialPrompt: Option<Prompt>, freshId: string, laterId: string)
    requires BuildPrompt(f, initialPrompt, freshId).Ok?
    ensures var p := BuildPrompt(f, initialPrompt, freshId).value;
      BuildPrompt(FieldsOf(p), Some(p), laterId) == Ok(p)
  {
    BuiltPromptIsTrimmed(f, initialPrompt, freshId);
  }

  /** The form's state, and the prompt being edited (`null` when adding). */
  class PromptFormState {
    var fields: FormFields
    var initialPrompt: Option<Prompt>

    /** The initial `useState` values. */
    constructor ()
      ensures fields == BlankForm && initialPrompt == None
    {
      fields := BlankForm;
      initialPrompt := None;
    }

    /** The effect run when `initialPrompt` changes: load the edited prompt, or reset to a blank form. */
    method LoadInitial(initial: Option<Prompt>)
      modifies this
      ensures initialPrompt == initial
      ensures fields == if initial.Some? then FieldsOf(initial.value) else BlankForm
    {
      initialPrompt := initial;
      if initial.Some? {
        fields := FieldsOf(initial.value);
      } else {
        fields := BlankForm;
      }
    }

    /**
     * handleSubmit: the answer is the prompt handed to `onSubmit`, or the
     * alert. After an add, name and text are cleared and the rest kept;
     * after an edit or a refusal nothing changes.
     */
    method HandleSubmit(freshId: string) returns (r: Result<Prompt>)
      modifies this`fields
      ensures r == BuildPrompt(old(fields), initialPrompt, freshId)
      ensures fields == if r.Ok? && initialPrompt.None? then old(fields).(name := "", text := "") else old(fields)
    {
      var submitted := fields;
      r := BuildPrompt(submitted, initialPrompt, freshId);
      if r.Ok? && initialPrompt.None? {
        fields := submitted.(name := "", text := "");
      }
    }
  }
}
