/**
 * The AI categorisation panel (src/options/components/CategorySuggestions.tsx):
 * how the categoriser's answer becomes per-prompt suggestions, how a
 * suggestion is switched on and off, and how the chosen ones are applied.
 * The categoriser itself is an outside service; its answer is an input.
 */
module CategorySuggestions {
  import opened Wrappers
  import opened Storage

  const NoKeyMessage: string := "Please enter an OpenAI API key in the Settings tab first."
  const FailureMessage: string := "Failed to categorize prompts"
  const UnexpectedMessage: string := "An unexpected error occurred while fetching categories."

  /** One suggested category for the prompt with id `promptId`. */
  datatype Suggestion = Suggestion(promptId: string, category: string)

  /** What getCategorySuggestions resolves to. */
  datatype CategoryResult = CategoryResult(success: bool, suggestions: Option<seq<Suggestion>>, errorMessage: Option<string>)

  /** The awaited call: it resolves with a result or it throws. */
  datatype ApiOutcome = Answered(result: CategoryResult) | Threw

  /** A prompt with its suggestion and whether the suggestion is to be used. */
  datatype Entry = Entry(prompt: Prompt, suggestedCategory: string, useCategory: bool)

  /** The panel's state. */
  datatype PanelState = PanelState(loading: bool, error: Option<string>, entries: seq<Entry>, isFetched: bool)

  /** The state the panel opens in. */
  const InitialPanel: PanelState := PanelState(false, None, [], false)

  /** The index of the first suggestion at or after `k` for `id`, the earlier ones being for other ids. */
  function SuggestionIndex(suggestions: seq<Suggestion>, id: string, k: nat): (r: Option<nat>)
    requires k <= |suggestions|
    requires forall j :: 0 <= j < k ==> suggestions[j].promptId != id
    ensures r.Some? ==> r.value < |suggestions| && suggestions[r.value].promptId == id
    ensures r.Some? ==> forall j :: 0 <= j < r.value ==> suggestions[j].promptId != id
    ensures r.None? ==> forall j :: 0 <= j < |suggestions| ==> suggestions[j].promptId != id
    decreases |suggestions| - k
  {
    if k == |suggestions| then None
    else if suggestions[k].promptId == id then Some(k)
    else SuggestionIndex(suggestions, id, k + 1)
  }

  /** The first suggestion for `id`, as `suggestions.find(...)` answers. */
  function FindSuggestion(suggestions: seq<Suggestion>, id: string): (r: Option<Suggestion>)
    ensures r.None? <==> forall k :: 0 <= k < |suggestions| ==> suggestions[k].promptId != id
    ensures r.Some? ==> exists k :: 0 <= k < |suggestions| && suggestions[k] == r.value && r.value.promptId == id &&
                                     forall j :: 0 <= j < k ==> suggestions[j].promptId != id
  {
    match SuggestionIndex(suggestions, id, 0)
    case None => None
    case Some(k) => Some(suggestions[k])
  }

  /** `suggestion?.category || ''`. */
  function SuggestedCategory(suggestions: seq<Suggestion>, id: string): (c: string)
    ensures (forall k :: 0 <= k < |suggestions| ==> suggestions[k].promptId != id) ==> c == ""
    ensures (exists k :: 0 <= k < |suggestions| && suggestions[k].promptId == id) ==>
      exists k :: 0 <= k < |suggestions| && suggestions[k] == Suggestion(id, c) &&
                  forall j :: 0 <= j < k ==> suggestions[j].promptId != id
  {
    match FindSuggestion(suggestions, id)
    case None => ""
    case Some(s) => s.category
  }

  /**
   * The mapping step of handleFetchCategories: one entry per prompt, in order,
   * carrying the first suggestion for its id (or `''`), and used exactly when
   * that suggestion is non-empty.
   */
  function MapSuggestions(prompts: seq<Prompt>, suggestions: seq<Suggestion>): (r: seq<Entry>)
    ensures |r| == |prompts|
    ensures forall i :: 0 <= i < |prompts| ==>
      && r[i].prompt == prompts[i]
      && r[i].suggestedCategory == SuggestedCategory(suggestions, prompts[i].id)
      && (r[i].useCategory <==> r[i].suggestedCategory != "")
  {
    seq(|prompts|, i requires 0 <= i < |prompts| =>
      var c := SuggestedCategory(suggestions, prompts[i].id);
      Entry(prompts[i], c, c != ""))
  }

  /** The error shown for an unsuccessful answer: its message, or the default when it has none. */
  function FailureText(result: CategoryResult): (m: string)
    ensures m != ""
    ensures result.errorMessage.Some? && result.errorMessage.value != "" ==> m == result.errorMessage.value
  {
    if result.errorMessage.Some? && result.errorMessage.value != "" then result.errorMessage.value else FailureMessage
  }

  /**
   * handleFetchCategories, from the state it starts in to the state it
   * settles in. Without a key the call is never made and only the error is
   * set. A failed answer, an answer without suggestions, or a thrown call sets
   * the error and keeps the earlier entries and `isFetched`. A good answer
   * replaces the entries and marks them fetched.
   */
  function FetchCategories(st: PanelState, apiKey: string, prompts: seq<Prompt>, outcome: ApiOutcome): (r: PanelState)
    ensures apiKey == "" ==> r == st.(error := Some(NoKeyMessage))
    ensures apiKey != "" ==> !r.loading
    ensures r.isFetched != st.isFetched || r.entries != st.entries ==>
      && apiKey != "" && outcome.Answered? && outcome.result.success && outcome.result.suggestions.Some?
      && r.isFetched && r.error == None
      && r.entries == MapSuggestions(prompts, outcome.result.suggestions.value)
    ensures r.error == None <==>
      apiKey != "" && outcome.Answered? && outcome.result.success && outcome.result.suggestions.Some?
    ensures apiKey != "" && outcome.Answered? && outcome.result.success && outcome.result.suggestions.Some? ==>
      r == PanelState(false, None, MapSuggestions(prompts, outcome.result.suggestions.value), true)
    ensures apiKey != "" && outcome.Answered? && !(outcome.result.success && outcome.result.suggestions.Some?) ==>
      r == st.(loading := false, error := Some(FailureText(outcome.result)))
    ensures apiKey != "" && outcome.Threw? ==> r == st.(loading := false, error := Some(UnexpectedMessage))
  {
    if apiKey == "" then st.(error := Some(NoKeyMessage))
    else match outcome
      case Threw => st.(loading := false, error := Some(UnexpectedMessage))
      case Answered(result) =>
        if !result.success || result.suggestions.None? then
          st.(loading := false, error := Some(FailureText(result)))
        else
          PanelState(false, None, MapSuggestions(prompts, result.suggestions.value), true)
  }

  /** Without a key the outcome of the call plays no part: no call is made. */
  lemma NoKeyMakesNoCall(st: PanelState, prompts: seq<Prompt>, o1: ApiOutcome, o2: ApiOutcome)
    ensures FetchCategories(st, "", prompts, o1) == FetchCategories(st, "", prompts, o2)
  {
  }

  /** handleToggleUseCategory: the entries with id `id` flip `useCategory`; nothing else changes. */
  function ToggleUseCategory(entries: seq<Entry>, id: string): (r: seq<Entry>)
    ensures |r| == |entries|
    ensures forall i :: 0 <= i < |entries| ==>
      && r[i].prompt == entries[i].prompt && r[i].suggestedCategory == entries[i].suggestedCategory
      && (r[i].useCategory <==> (if entries[i].prompt.id == id then !entries[i].useCategory else entries[i].useCategory))
  {
    seq(|entries|, i requires 0 <= i < |entries| =>
      if entries[i].prompt.id == id then entries[i].(useCategory := !entries[i].useCategory) else entries[i])
  }

  /** Toggling the same id twice restores the entries. */
  lemma ToggleTwice(entries: seq<Entry>, id: string)
    ensures ToggleUseCategory(ToggleUseCategory(entries, id), id) == entries
  {
    var r := ToggleUseCategory(ToggleUseCategory(entries, id), id);
    forall i | 0 <= i < |entries| ensures r[i] == entries[i] {
    }
  }

  /** The index of the first entry at or after `k` for `id`, the earlier ones being for other ids. */
  function EntryIndex(entries: seq<Entry>, id: string, k: nat): (r: Option<nat>)
    requires k <= |entries|
    requires forall j :: 0 <= j < k ==> entries[j].prompt.id != id
    ensures r.Some? ==> r.value < |entries| && entries[r.value].prompt.id == id
    ensures r.Some? ==> forall j :: 0 <= j < r.value ==> entries[j].prompt.id != id
    ensures r.None? ==> forall j :: 0 <= j < |entries| ==> entries[j].prompt.id != id
    decreases |entries| - k
  {
    if k == |entries| then None
    else if entries[k].prompt.id == id then Some(k)
    else EntryIndex(entries, id, k + 1)
  }

  /** The entry `promptsWithSuggestions.find(p => p.id === id)` answers. */
  function FindEntry(entries: seq<Entry>, id: string): (r: Option<Entry>)
    ensures r.None? <==> forall k :: 0 <= k < |entries| ==> entries[k].prompt.id != id
    ensures r.Some? ==> exists k :: 0 <= k < |entries| && entries[k] == r.value && r.value.prompt.id == id &&
                                     forall j :: 0 <= j < k ==> entries[j].prompt.id != id
  {
    match EntryIndex(entries, id, 0)
    case None => None
    case Some(k) => Some(entries[k])
  }

  /** Whether `e` replaces the category of its prompt: it is switched on and its suggestion is non-empty. */
  predicate Chosen(e: Option<Entry>)
  {
    e.Some? && e.value.useCategory && e.value.suggestedCategory != ""
  }

  /**
   * handleApplyCategories: every prompt, in order, with its category replaced
   * by the suggestion of its entry when that entry is chosen; every other
   * field and every other prompt unchanged.
   */
  function ApplyCategories(prompts: seq<Prompt>, entries: seq<Entry>): (r: seq<Prompt>)
    ensures |r| == |prompts|
    ensures forall i :: 0 <= i < |prompts| ==>
      var e := FindEntry(entries, prompts[i].id);
      r[i] == if Chosen(e) then prompts[i].(category := e.value.suggestedCategory) else prompts[i]
  {
    seq(|prompts|, i requires 0 <= i < |prompts| =>
      var e := FindEntry(entries, prompts[i].id);
      if Chosen(e) then prompts[i].(category := e.value.suggestedCategory) else prompts[i])
  }

  /** Applying changes categories only: every other field of every prompt stays. */
  lemma ApplyChangesOnlyCategories(prompts: seq<Prompt>, entries: seq<Entry>)
    ensures var r := ApplyCategories(prompts, entries);
      forall i :: 0 <= i < |prompts| ==> r[i] == prompts[i].(category := r[i].category)
  {
  }

  /** A prompt without an entry, or whose entry has an empty suggestion, keeps its category. */
  lemma UnsuggestedKeepsCategory(prompts: seq<Prompt>, entries: seq<Entry>, i: nat)
    requires i < |prompts|
    requires forall k :: 0 <= k < |entries| && entries[k].prompt.id == prompts[i].id ==> entries[k].suggestedCategory == ""
    ensures ApplyCategories(prompts, entries)[i] == prompts[i]
  {
    var e := FindEntry(entries, prompts[i].id);
    if e.Some? {
      var k :| 0 <= k < |entries| && entries[k] == e.value && forall j :: 0 <= j < k ==> entries[j].prompt.id != prompts[i].id;
      assert entries[k].prompt.id == prompts[i].id;
    }
  }

  /** In entries mapped from `prompts`, the entry found for a prompt's id carries that id's suggestion. */
  lemma {:induction false} FindMappedEntry(prompts: seq<Prompt>, suggestions: seq<Suggestion>, i: nat)
    requires i < |prompts|
    ensures var e := FindEntry(MapSuggestions(prompts, suggestions), prompts[i].id);
      && e.Some?
      && e.value.suggestedCategory == SuggestedCategory(suggestions, prompts[i].id)
      && (e.value.useCategory <==> e.value.suggestedCategory != "")
  {
    var entries := MapSuggestions(prompts, suggestions);
    var e := FindEntry(entries, prompts[i].id);
    assert entries[i].prompt.id == prompts[i].id;
    var k :| 0 <= k < |entries| && entries[k] == e.value && forall j :: 0 <= j < k ==> entries[j].prompt.id != prompts[i].id;
    assert entries[k].prompt.id == prompts[k].id;
  }

  /**
   * Fetching suggestions and applying them untouched gives each prompt the
   * first suggestion for its id when that suggestion is non-empty, and leaves
   * it as it was otherwise.
   */
  lemma FetchThenApply(st: PanelState, apiKey: string, prompts: seq<Prompt>, suggestions: seq<Suggestion>, message: Option<string>)
    requires apiKey != ""
    ensures var fetched := FetchCategories(st, apiKey, prompts, Answered(CategoryResult(true, Some(suggestions), message)));
      var r := ApplyCategories(prompts, fetched.entries);
      && |r| == |prompts|
      && forall i :: 0 <= i < |prompts| ==>
           var c := SuggestedCategory(suggestions, prompts[i].id);
           r[i] == if c != "" then prompts[i].(category := c) else prompts[i]
  {
    var fetched := FetchCategories(st, apiKey, prompts, Answered(CategoryResult(true, Some(suggestions), message)));
    assert fetched.entries == MapSuggestions(prompts, suggestions);
    forall i | 0 <= i < |prompts|
      ensures var c := SuggestedCategory(suggestions, prompts[i].id);
        ApplyCategories(prompts, fetched.entries)[i] == if c != "" then prompts[i].(category := c) else prompts[i]
    {
      FindMappedEntry(prompts, suggestions, i);
    }
  }
}
