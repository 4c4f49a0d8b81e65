/**
 * The saved-prompt list (src/options/components/PromptList.tsx): what each
 * row shows and which move buttons it enables.
 */
module PromptList {
  import opened Wrappers
  import opened Strings
  import opened Storage
  import opened Options

  const EmptyListMessage: string := "No prompts added yet. Use the form above to add your first prompt."
  const ListHeading: string := "Your Prompts"
  /** How many characters of the text a row previews. */
  const PreviewLength: nat := 50
  const UnnamedPrompt: string := "Unnamed Prompt"
  const FallbackColor: string := "#444654"
  const FallbackIcon: string := "text_snippet"

  /** What one row shows: its key, colour swatch, icon, name, text preview, category badge and move buttons. */
  datatype Row = Row(key: string, swatch: string, icon: string, name: string, preview: string,
                     badge: Option<string>, upDisabled: bool, downDisabled: bool)

  /** The whole list: the empty-state message, or a heading over one row per prompt. */
  datatype ListView = EmptyList(message: string) | Rows(heading: string, rows: seq<Row>)

  /** JavaScript's `s || fallback` on strings. */
  function OrElse(s: string, fallback: string): (r: string)
    ensures s != "" ==> r == s
    ensures s == "" ==> r == fallback
  {
    if s != "" then s else fallback
  }

  /** The row of the prompt at `index`. */
  function RowOf(prompts: seq<Prompt>, index: nat): (r: Row)
    requires index < |prompts|
    ensures var p := prompts[index];
      && r.key == p.id
      && (p.color != "" ==> r.swatch == p.color) && (p.color == "" ==> r.swatch == FallbackColor)
      && (p.icon != "" ==> r.icon == p.icon) && (p.icon == "" ==> r.icon == FallbackIcon)
      && (p.name != "" ==> r.name == p.name) && (p.name == "" ==> r.name == UnnamedPrompt)
      && (|p.text| <= PreviewLength ==> r.preview == p.text)
      && (|p.text| > PreviewLength ==> r.preview == p.text[..PreviewLength] + "...")
      && (r.badge.Some? <==> p.category != "")
      && (r.badge.Some? ==> r.badge.value == p.category)
      && (r.upDisabled <==> index == 0)
      && (r.downDisabled <==> index == |prompts| - 1)
  {
    var p := prompts[index];
    var preview := Truncate(p.text, PreviewLength);
    assert |p.text| > PreviewLength ==> preview == preview[..PreviewLength] + preview[PreviewLength..];
    Row(p.id, OrElse(p.color, FallbackColor), OrElse(p.icon, FallbackIcon), OrElse(p.name, UnnamedPrompt),
        preview, if p.category != "" then Some(p.category) else None,
        index == 0, index == |prompts| - 1)
  }

  /** The component's output: the message for an empty list, otherwise one row per prompt in list order. */
  function View(prompts: seq<Prompt>): (v: ListView)
    ensures v.EmptyList? <==> prompts == []
    ensures v.EmptyList? ==> v.message == EmptyListMessage
    ensures v.Rows? ==> v.heading == ListHeading && |v.rows| == |prompts|
    ensures v.Rows? ==> forall i :: 0 <= i < |prompts| ==> v.rows[i] == RowOf(prompts, i) && v.rows[i].key == prompts[i].id
  {
    if prompts == [] then EmptyList(EmptyListMessage)
    else Rows(ListHeading, seq(|prompts|, i requires 0 <= i < |prompts| => RowOf(prompts, i)))
  }

  /** Whether a row's button for `direction` is disabled. */
  function Disabled(r: Row, direction: Direction): bool
  {
    if direction == Up then r.upDisabled else r.downDisabled
  }

  /**
   * The disabled buttons are exactly the moves handleReorderPrompt ignores:
   * with distinct ids, a row's button for a direction is disabled if and only
   * if reordering that row's prompt in that direction leaves the list as it is.
   */
  lemma DisabledIffReorderIsNoOp(prompts: seq<Prompt>, index: nat, direction: Direction)
    requires DistinctIds(prompts) && index < |prompts|
    ensures FindIndex(prompts, prompts[index].id) == Some(index)
    ensures Disabled(RowOf(prompts, index), direction) <==> Reordered(prompts, prompts[index].id, direction) == prompts
  {
    FindIndexDistinct(prompts, index);
    DisabledAtBoundary(prompts, index, direction);
    ReorderNoOpIffBoundary(prompts, index, direction);
  }

  /** A row's button for a direction is disabled exactly at the boundary for that direction. */
  lemma DisabledAtBoundary(prompts: seq<Prompt>, index: nat, direction: Direction)
    requires index < |prompts|
    ensures Disabled(RowOf(prompts, index), direction) <==> AtBoundary(prompts, index, direction)
  {
    var row := RowOf(prompts, index);
    assert row.upDisabled <==> index == 0;
    assert row.downDisabled <==> index == |prompts| - 1;
  }
}
