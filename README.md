# QuickPrompts in Dafny

QuickPrompts is a browser extension for the ChatGPT web page. It keeps a list of saved prompts, each with an id, a name, a text, a category, a colour and an icon. On the chat page it shows one button per saved prompt in a bar placed right after the message composer, and a click on a button types that prompt into the editor. An options page lets the user:

- add, edit, delete and reorder prompts;
- ask an outside service to suggest a category for each prompt and apply the suggestions;
- preview an imported prompt file and pick which of its prompts to take.

This project models the logic behind these features and proves properties about it:

- `wrappers.dfy`: the `Option` and `Result` types.
- `strings.dfy`: the JavaScript string operations the extension relies on: `split` and `join` on a one-character separator, `trim` over the ECMAScript white-space and line-terminator characters, and cutting a string to `n` characters plus `"..."`.
- `storage.dfy`: the store over two abstract `chrome.storage` areas, `local` and `sync`.
  - Reads fall back from `local` to `sync` to the defaults.
  - A sync hit is copied into `local`.
  - Saving prompts is read-modify-write.
  - Reading settings merges them over the defaults.
  - Initialisation is modelled as written and as intended.
  - Every call into `chrome.storage` may fail; whether it succeeds is a parameter.
- `insertion.dfy`: the text-insertion engine of the content script.
  - The editor's children are text nodes and `<br>` elements.
  - A prompt is inserted as a fragment with one `<br>` per line break, with an optional leading `<br>` at the caret, or over the selection.
  - The test for that leading `<br>` is modelled as written and as intended.
- `content_script.dfy`: the prompt bar.
  - The document is a flat list of sibling elements with identities.
  - The script's two module variables (the observed composer and its own bar) are fields of a `Page` class.
  - The clean-up loop, the injector and the mutation-observer callback are methods on it.
  - It proves that after a new composer appears the page holds exactly one bar, and that bar sits right after the composer.
- `options.dfy`: the options page's list handlers (add, update, delete, reorder by two splices) and the page's tab and edit state. Every handler saves first and changes the shown list only when the save succeeded.
- `prompt_form.dfy`: the add/edit form. It covers how a submitted form becomes a prompt (validation, trimming, a name derived from the first three words) and how the fields load and reset.
- `category_suggestions.dfy`: the categorisation panel. It covers mapping the service's answer onto the prompts, switching a suggestion on and off, and applying the chosen suggestions.
- `import_confirm.dfy`: the import preview's expanded and selected sets, the select-all/none toggle, and the "Replace Selected" button.
- `prompt_list.dfy`: what each row of the saved-prompt list shows, and which move buttons are disabled.

## Model

| member | source | states |
|---|---|---|
| Strings.Split | src/content-scripts/contentScript.ts:118 | `split` on one character gives one piece more than there are separators, and no piece contains the separator |
| Strings.JoinSplit | src/content-scripts/contentScript.ts:118 | joining the pieces of a split with the same separator gives back the original string |
| Strings.Trim | src/options/components/PromptForm.tsx:60 | a trimmed string is no longer than its input and neither begins nor ends with white space; `TrimIsSlice` says which slice it is |
| Strings.LeadingWhitespace | src/options/components/PromptForm.tsx:60 | the length of the run of white space the string begins with: white space up to it, and none right at it |
| Strings.TrimIsSlice | src/options/components/PromptForm.tsx:60 | `trim` keeps the slice of the input that starts after its leading white space, with only white space after that slice |
| Strings.TrimEmptyIff | src/options/components/PromptForm.tsx:60 | `trim` gives the empty string exactly when every character is white space |
| Strings.TrimIdempotent | src/options/components/PromptForm.tsx:71-72 | trimming twice is trimming once |
| Strings.Truncate | src/content-scripts/contentScript.ts:216-218 | a string no longer than `n` is kept; a longer one becomes its first `n` characters followed by `"..."` |
| Storage.Written | src/utils/storage.ts:94-96 | writing a data object leaves both keys present in `local`, holding exactly that data |
| Storage.MergeSettings | src/utils/storage.ts:169-172 | every default key is present, a stored key overrides its default, and no stored settings gives exactly the defaults |
| Storage.Fetch | src/utils/storage.ts:62-89 | answers from `local` iff the local read succeeds with both keys truthy; otherwise from `sync` iff its read and the copy into `local` succeed; otherwise with the defaults. A sync answer leaves `local` equal to `sync` |
| Storage.SaveEffect | src/utils/storage.ts:109-118 | saving writes the new prompt list together with the settings that were read. It fails iff the write fails. A read that fell back to the defaults makes the default object itself take the new list |
| Storage.SaveThenRead | src/utils/storage.ts:109-113 | after a successful save, the next successful read returns the saved list |
| Storage.SaveKeepsSettings | src/utils/storage.ts:111-113 | when `local` holds both keys, saving prompts leaves the stored settings unchanged |
| Storage.FetchStable | src/utils/storage.ts:75-82 | once a read answered from `local` or `sync`, a later successful local read returns the same data from `local` |
| Storage.InitEffect | src/utils/storage.ts:47-57 | initialisation as written changes `local` only through the read's sync copy |
| Storage.InitLeavesFreshStoreEmpty | src/utils/storage.ts:49-52 | on a fresh install, initialisation as written leaves `local` empty |
| Storage.FirstSaveDropsSettingsAfterInit | src/utils/storage.ts:49-52 | on a fresh install, an API key saved before the first prompt is replaced by the default (null) when that prompt is saved |
| Storage.InitEffectIntended | src/utils/storage.ts:49-52 | intended initialisation: when neither `local` nor the sync copy holds both keys, the defaults are written. After a successful write both keys are present, a failed write leaves the written behaviour, and a `local` that already held both keys is kept |
| Storage.FirstSaveKeepsSettingsAfterIntendedInit | src/utils/storage.ts:49-52 | after the intended initialisation, an API key saved before the first prompt survives the first prompt save |
| Storage.ChromeStorage.constructor | src/utils/storage.ts:39-42 | the module's default object starts as an empty list with the default settings |
| Storage.ChromeStorage.GetStorageData | src/utils/storage.ts:62-89 | the answer, its source and the new `local` area are those of `Fetch` |
| Storage.ChromeStorage.SetStorageData | src/utils/storage.ts:94-104 | a successful write stores both keys; a failed one leaves `local` as it was and is reported |
| Storage.ChromeStorage.SavePrompts | src/utils/storage.ts:109-118 | the new `local` area, the default object and the outcome are those of `SaveEffect` |
| Storage.ChromeStorage.SaveUserSettings | src/utils/storage.ts:123-136 | only the settings key is written; the prompt key is left as it was |
| Storage.ChromeStorage.GetPrompts | src/utils/storage.ts:141-149 | the list is the one the read answers with |
| Storage.ChromeStorage.GetUserSettings | src/utils/storage.ts:154-176 | the settings are exactly the defaults on a read error, and otherwise the stored settings merged over the defaults |
| Storage.ChromeStorage.InitializeStorage | src/utils/storage.ts:47-57 | `local` becomes `InitEffect` of the old state |
| Storage.ChromeStorage.InitializeStorageIntended | src/utils/storage.ts:47-57 | `local` becomes `InitEffectIntended` of the old state |
| Insertion.LinesFragment | src/content-scripts/contentScript.ts:123-133 | one `<br>` for each line after the first; text nodes are never empty and hold no line break |
| Insertion.LinesFragmentRender | src/content-scripts/contentScript.ts:123-133 | the fragment reads back as the lines joined by line breaks |
| Insertion.LinesFragmentStep | src/content-scripts/contentScript.ts:123-133 | one more line adds a `<br>` (except before the first line) and then that line's text node, if the line is not empty |
| Insertion.FragmentRoundTrip | src/content-scripts/contentScript.ts:117-133 | reading the fragment back, with `<br>` as `"\n"`, reproduces the text. The `<br>` count equals the number of line breaks in the text |
| Insertion.NeedsLineBreak | src/content-scripts/contentScript.ts:177-181 | false at offset 0; otherwise true unless the container's text before the offset ends with `"\n"` (the offset is clamped as `substring` does) |
| Insertion.NeedsLineBreakOnEditor | src/content-scripts/contentScript.ts:177-181 | on an editor of `<br>`s and single-line text nodes, a `<br>` goes before the text at every offset but 0, since a `<br>` adds no `"\n"` to `textContent` |
| Insertion.WrittenBreakAfterBr | src/content-scripts/contentScript.ts:177-184 | with the caret right after a `<br>`, the written test still adds a `<br>`, so the editor reads an empty line before the text |
| Insertion.BreakAfterBrAddsEmptyLine | src/content-scripts/contentScript.ts:177-184 | after `a` and a `<br>`, the editor reads `"a\n\n"` followed by the text |
| Insertion.NeedsLineBreakIntended | src/content-scripts/contentScript.ts:176-181 | the intended test, on what the editor shows before the offset; never at offset 0 |
| Insertion.IntendedInsertionStartsLine | src/content-scripts/contentScript.ts:176-184 | with the intended test the text always starts its own line, and no empty line is added when the text before already ends with a line break |
| Insertion.Inserted | src/content-scripts/contentScript.ts:110-136 | what is inserted reads back as an optional leading line break followed by the text, with exactly one more `<br>` when the leading break is asked for |
| Insertion.InputElement.BuildFragment | src/content-scripts/contentScript.ts:117-133 | the loop builds exactly the fragment for the text, which reads back as the text |
| Insertion.InputElement.InsertTextWithLineBreaks | src/content-scripts/contentScript.ts:104-140 | the optional `<br>` and the fragment go in at the caret, everything else stays in place, and the caret ends right after them |
| Insertion.InputElement.InsertTextAtCursorPosition | src/content-scripts/contentScript.ts:146-202 | no selection: the text replaces the content and no event fires. No range: the text is appended on a new line. A range: the selection is deleted and the text inserted at its start, with a leading break as needed. The caret ends after the insertion, the element is focused, and one `input` event fires |
| Insertion.InsertionRender | src/content-scripts/contentScript.ts:172-184 | after an insertion the editor reads as the text before the range, the optional break, the prompt, then the text after the range |
| Insertion.InsertionBrCount | src/content-scripts/contentScript.ts:172-184 | after an insertion the editor holds one `<br>` for each line break in the text, plus the optional leading break, plus those already around the range |
| Insertion.InputElement.constructor | src/content-scripts/contentScript.ts:146-158 | the editor starts unfocused with no input event dispatched, holding the given content and selection |
| Insertion.TwoLinesIntoEmptyEditor | src/content-scripts/contentScript.ts:118-133 | two non-empty lines at the start of an empty editor become text, `<br>`, text, with no leading break |
| Insertion.LineOneLineTwo | src/content-scripts/contentScript.ts:118-133 | `"line1\nline2"` becomes `line1`, `<br>`, `line2` |
| ContentScript.CreatePromptButton | src/content-scripts/contentScript.ts:207-225 | the label is the name when there is one. Otherwise it is the text, or for a text over 15 characters its first 15 characters plus `"..."`. The tooltip is the whole text. The background is the colour, or `#444654` when empty |
| ContentScript.ExplainQuantumButton | src/content-scripts/contentScript.ts:214-218 | an unnamed prompt "Explain quantum computing in simple terms" shows "Explain quantum..." |
| ContentScript.Cleaned | src/content-scripts/contentScript.ts:16-27 | clean-up never lengthens the document |
| ContentScript.CleanedMembers | src/content-scripts/contentScript.ts:16-27 | clean-up removes exactly the bars whose id is not this instance's; the own bar and every other element stay |
| ContentScript.Detached | src/content-scripts/contentScript.ts:24 | removing an element that is not in the document changes nothing |
| ContentScript.DetachedMembers | src/content-scripts/contentScript.ts:63 | removing an element removes exactly the element with that identity |
| ContentScript.CleanedKeyed | src/content-scripts/contentScript.ts:16-27 | after the clean-up, element identities are still distinct and still below the next fresh identity |
| ContentScript.CleanedOwnTracked | src/content-scripts/contentScript.ts:21-26 | the clean-up never removes the own bar, so the tracked reference still names every element that carries the own id |
| ContentScript.UnmountedFree | src/content-scripts/contentScript.ts:58-65 | once the previous own bar is removed, no element in the document carries the own id, and identities stay distinct |
| ContentScript.NoBarLeft | src/content-scripts/contentScript.ts:39-42 | the clean-up followed by removal of the own bar leaves no bar in the document |
| ContentScript.InsertAfter | src/content-scripts/contentScript.ts:87-92 | the bar lands immediately after the target; nothing changes when the target has no parent |
| ContentScript.InsertAfterPositions | src/content-scripts/contentScript.ts:87-92 | elements up to the target keep their positions, the bar comes next, and every later element moves one place right |
| ContentScript.InsertFreshKeyed | src/content-scripts/contentScript.ts:68-92 | inserting a new bar keeps identities distinct, and the new bar is the only element with its id |
| ContentScript.Bar | src/content-scripts/contentScript.ts:68-84 | the bar carries the shared class and this instance's id, with one button per prompt in list order |
| ContentScript.OneBarAfterTarget | src/content-scripts/contentScript.ts:39-42 | after clean-up and injection at a target in the document, the only bar on the page is the new one, immediately after the target |
| ContentScript.Page.constructor | src/content-scripts/contentScript.ts:5-11 | no composer observed and no own bar yet |
| ContentScript.Page.OwnBarUnique | src/content-scripts/contentScript.ts:68-70 | at most one element carries this instance's bar id |
| ContentScript.Page.CleanupExistingContainers | src/content-scripts/contentScript.ts:16-27 | the loop over the snapshot leaves exactly `Cleaned` of the old document and keeps identities distinct |
| ContentScript.Page.BuildButtons | src/content-scripts/contentScript.ts:81-84 | one button per prompt, in list order |
| ContentScript.Page.InjectPromptButtons | src/content-scripts/contentScript.ts:48-96 | an empty list changes nothing. Otherwise the previous own bar is removed, a fresh bar becomes the own bar, and it is placed right after the target |
| ContentScript.Page.OnMutation | src/content-scripts/contentScript.ts:30-43 | nothing happens for a missing or already-observed composer. For a new one, the composer is recorded, stray bars are cleaned up and the bar is injected. When the composer is in the document the page then holds exactly one bar, right after it |
| Options.Appended | src/options/OptionsPage.tsx:49 | the new prompt comes after all the earlier ones, which are unchanged |
| Options.ReplaceById | src/options/OptionsPage.tsx:62-64 | every prompt with the updated id is replaced; every other prompt is untouched |
| Options.RemoveById | src/options/OptionsPage.tsx:78 | the survivors are exactly the prompts with a different id |
| Options.RemoveByIdAppend | src/options/OptionsPage.tsx:78 | deletion keeps the survivors' relative order |
| Options.RemoveAbsent | src/options/OptionsPage.tsx:78 | deleting an id that is not in the list changes nothing |
| Options.DeleteUndoesAdd | src/options/OptionsPage.tsx:49-78 | deleting a just-added prompt with a new id restores the list |
| Options.UpdateThenDelete | src/options/OptionsPage.tsx:62-78 | update then delete of one id equals the delete alone |
| Options.UpdateIdempotent | src/options/OptionsPage.tsx:62-64 | applying the same update twice equals applying it once |
| Options.FindIndex | src/options/OptionsPage.tsx:122 | the first position holding the id, or none (-1) iff no prompt has it |
| Options.Swapped | src/options/OptionsPage.tsx:130-133 | exchanging two positions permutes the list |
| Options.Reordered | src/options/OptionsPage.tsx:121-133 | at a boundary the list is unchanged. Otherwise the prompt trades places with its neighbour in that direction, and the result is a permutation |
| Options.FindIndexDistinct | src/options/OptionsPage.tsx:122 | with distinct ids, `findIndex` finds each prompt at its own position |
| Options.ReorderNoOpIffBoundary | src/options/OptionsPage.tsx:121-133 | with distinct ids, a move leaves the list unchanged iff the prompt is already at the end it is moving toward |
| Options.SwappedDistinct | src/options/OptionsPage.tsx:130-133 | exchanging two positions keeps the ids distinct |
| Options.SwapBack | src/options/OptionsPage.tsx:130-133 | exchanging the same two positions again restores the list |
| Options.DownThenUpRestores | src/options/OptionsPage.tsx:121-133 | with distinct ids, moving a prompt down and then up restores the list |
| Options.SpliceMove | src/options/OptionsPage.tsx:131-133 | the two splices exchange neighbouring positions |
| Options.OptionsPage.constructor | src/options/OptionsPage.tsx:15-19 | empty list, Prompts tab, no prompt being edited |
| Options.OptionsPage.LoadData | src/options/OptionsPage.tsx:22-36 | the stored list becomes the page's list |
| Options.OptionsPage.Commit | src/options/OptionsPage.tsx:50-51 | the list is saved, and shown only if the save succeeded |
| Options.OptionsPage.AddPrompt | src/options/OptionsPage.tsx:47-57 | the appended list is saved and, on success, shown |
| Options.OptionsPage.UpdatePrompt | src/options/OptionsPage.tsx:60-73 | the replaced list is saved; on success it is shown and the edit is closed |
| Options.OptionsPage.DeletePrompt | src/options/OptionsPage.tsx:76-86 | the filtered list is saved and, on success, shown |
| Options.OptionsPage.ReorderPrompt | src/options/OptionsPage.tsx:121-140 | a move past either end saves nothing and changes nothing; otherwise the reordered list is saved and, on success, shown |
| Options.OptionsPage.EditPrompt | src/options/OptionsPage.tsx:89-92 | the prompt goes into the form and the Prompts tab opens |
| Options.OptionsPage.CancelEdit | src/options/OptionsPage.tsx:186 | the edit is dropped |
| Options.OptionsPage.SubmitPrompt | src/options/OptionsPage.tsx:184 | a submit goes to the update handler while editing and to the add handler otherwise: the replaced or the appended list is what gets saved, and it is shown on success |
| Options.OptionsPage.ApplyCategorySuggestions | src/options/OptionsPage.tsx:108-118 | the list is saved; on success it is shown and the Prompts tab opens |
| Options.OptionsPage.SelectTab | src/options/OptionsPage.tsx:162-174 | the clicked tab becomes active |
| PromptForm.NamePieces | src/options/components/PromptForm.tsx:66 | one to three space-free pieces |
| PromptForm.DerivedName | src/options/components/PromptForm.tsx:66 | a derived name ends in `"..."` |
| PromptForm.DerivedNameShape | src/options/components/PromptForm.tsx:66 | the words kept are the text up to its third space. That is the whole text when it has at most two spaces, otherwise a prefix with exactly two spaces that the third space follows |
| PromptForm.BuildPrompt | src/options/components/PromptForm.tsx:57-75 | refused with "Prompt text cannot be empty" iff the text trims to nothing. Text and category are stored trimmed; colour and icon as given. The name is trimmed, or derived when blank. The id is the edited prompt's, or fresh |
| PromptForm.RefusedIffBlank | src/options/components/PromptForm.tsx:60-63 | a form is refused exactly when its text is white space only |
| PromptForm.BuiltPromptIsTrimmed | src/options/components/PromptForm.tsx:66-72 | a stored name, text and category are their own trim, and the name is never empty |
| PromptForm.FieldsOf | src/options/components/PromptForm.tsx:42-47 | editing loads each of the prompt's fields into the form |
| PromptForm.ResubmitUnchanged | src/options/components/PromptForm.tsx:42-75 | opening a stored prompt and submitting it unchanged gives the same prompt back |
| PromptForm.PromptFormState.constructor | src/options/components/PromptForm.tsx:33-37 | empty inputs, the first palette colour and the first icon |
| PromptForm.PromptFormState.LoadInitial | src/options/components/PromptForm.tsx:41-55 | an edited prompt loads its fields, and no prompt resets the form to blank |
| PromptForm.PromptFormState.HandleSubmit | src/options/components/PromptForm.tsx:57-83 | the answer is `BuildPrompt` of the fields. After a successful add, name and text are cleared; otherwise nothing changes |
| CategorySuggestions.FindSuggestion | src/options/components/CategorySuggestions.tsx:43 | the first suggestion for the id, or none iff there is none |
| CategorySuggestions.SuggestedCategory | src/options/components/CategorySuggestions.tsx:43-46 | the category of the first suggestion for the id, and `''` when there is none |
| CategorySuggestions.MapSuggestions | src/options/components/CategorySuggestions.tsx:42-49 | one entry per prompt in order, with the first suggestion's category; it is switched on iff that category is non-empty |
| CategorySuggestions.FailureText | src/options/components/CategorySuggestions.tsx:36 | the answer's own message when it has a non-empty one, else "Failed to categorize prompts" |
| CategorySuggestions.FetchCategories | src/options/components/CategorySuggestions.tsx:23-59 | no key: only the key error is set. A good answer replaces the entries with the mapped suggestions, marks them fetched and clears the error. A failed answer sets its own message or "Failed to categorize prompts", a throw sets the unexpected-error message, and both keep the entries. Loading ends once a call was made |
| CategorySuggestions.NoKeyMakesNoCall | src/options/components/CategorySuggestions.tsx:24-27 | without a key the service's answer plays no part |
| CategorySuggestions.ToggleUseCategory | src/options/components/CategorySuggestions.tsx:61-67 | entries with the id flip their switch; nothing else changes |
| CategorySuggestions.ToggleTwice | src/options/components/CategorySuggestions.tsx:61-67 | toggling the same id twice restores the entries |
| CategorySuggestions.FindEntry | src/options/components/CategorySuggestions.tsx:72 | the first entry for the id, or none iff there is none |
| CategorySuggestions.ApplyCategories | src/options/components/CategorySuggestions.tsx:69-85 | each prompt takes its entry's suggestion when that entry is switched on with a non-empty suggestion, and is otherwise unchanged |
| CategorySuggestions.ApplyChangesOnlyCategories | src/options/components/CategorySuggestions.tsx:71-81 | applying changes only the category field |
| CategorySuggestions.UnsuggestedKeepsCategory | src/options/components/CategorySuggestions.tsx:72-81 | a prompt with no entry, or only empty suggestions, is unchanged |
| CategorySuggestions.FindMappedEntry | src/options/components/CategorySuggestions.tsx:42-49 | in freshly mapped entries, each prompt's entry carries its id's suggestion |
| CategorySuggestions.FetchThenApply | src/options/components/CategorySuggestions.tsx:23-85 | fetch then apply, with no toggling, gives each prompt the category of the first suggestion for its id when that category is non-empty, and leaves the rest unchanged |
| ImportConfirm.Ids | src/options/components/ImportConfirmModal.tsx:62 | the set of the incoming ids, no larger than the list |
| ImportConfirm.DistinctIdsCount | src/options/components/ImportConfirmModal.tsx:62 | distinct ids give as many ids as prompts |
| ImportConfirm.Toggled | src/options/components/ImportConfirmModal.tsx:26-36 | exactly the toggled id changes membership |
| ImportConfirm.ToggledTwice | src/options/components/ImportConfirmModal.tsx:39-49 | toggling the same id twice restores the set |
| ImportConfirm.AllToggled | src/options/components/ImportConfirmModal.tsx:56-64 | empty when the selected count equals the list length, otherwise exactly the incoming ids |
| ImportConfirm.AllSelected | src/options/components/ImportConfirmModal.tsx:68 | holds iff the list is non-empty and the counts match |
| ImportConfirm.AllSelectedMeansEverySelected | src/options/components/ImportConfirmModal.tsx:68 | with distinct ids, "all selected" holds iff every incoming prompt is selected |
| ImportConfirm.SelectAllThenNone | src/options/components/ImportConfirmModal.tsx:56-64 | with distinct ids, the toggle selects everything and then clears |
| ImportConfirm.DuplicateIdsNeverDeselect | src/options/components/ImportConfirmModal.tsx:56-68 | with two prompts sharing an id, "all selected" never shows and the toggle never clears |
| ImportConfirm.AllToggledIntended | src/options/components/ImportConfirmModal.tsx:56-64 | the toggle clears when every incoming id is selected, otherwise selects them all |
| ImportConfirm.AllSelectedIntended | src/options/components/ImportConfirmModal.tsx:68 | holds iff the list is non-empty and every incoming prompt is selected |
| ImportConfirm.IntendedSelectAllThenNone | src/options/components/ImportConfirmModal.tsx:56-64 | for every non-empty list, duplicates included, the intended toggle selects everything and then clears |
| ImportConfirm.IntendedAgreesWhenDistinct | src/options/components/ImportConfirmModal.tsx:56-68 | with distinct ids the intended toggle and flag equal the written ones |
| ImportConfirm.ImportModal.constructor | src/options/components/ImportConfirmModal.tsx:22-23 | nothing expanded, nothing selected, so the selection lies within the incoming ids |
| ImportConfirm.ImportModal.ToggleExpand | src/options/components/ImportConfirmModal.tsx:26-36 | the id flips in the expanded set, and the selection is untouched |
| ImportConfirm.ImportModal.ToggleSelect | src/options/components/ImportConfirmModal.tsx:39-49 | the id flips in the selected set, and the expanded set is untouched. Toggling an incoming id keeps the selection within the incoming ids |
| ImportConfirm.ImportModal.SelectToggleAll | src/options/components/ImportConfirmModal.tsx:56-64 | the selection becomes `AllToggled` of the old one, which lies within the incoming ids |
| ImportConfirm.ImportModal.SelectToggleAllIntended | src/options/components/ImportConfirmModal.tsx:56-64 | the selection becomes `AllToggledIntended` of the old one, which lies within the incoming ids |
| ImportConfirm.ImportModal.ReplaceSelectedClick | src/options/components/ImportConfirmModal.tsx:51-53 | the button acts iff something is selected, and hands on the selected set unchanged: incoming ids only |
| PromptList.OrElse | src/options/components/PromptList.tsx:35 | a non-empty string is kept; an empty one gives the fallback |
| PromptList.RowOf | src/options/components/PromptList.tsx:23-66 | a row is keyed by the id. Empty colour, icon and name fall back to `#444654`, `text_snippet` and "Unnamed Prompt". The preview is the text cut to 50 characters plus `"..."`. The badge shows iff there is a category. Up is disabled iff first, down iff last |
| PromptList.View | src/options/components/PromptList.tsx:12-24 | an empty list shows only the empty message; otherwise one row per prompt, in order |
| PromptList.DisabledIffReorderIsNoOp | src/options/components/PromptList.tsx:53-62 | with distinct ids, a move button is disabled iff that move would leave the list unchanged |
| PromptList.DisabledAtBoundary | src/options/components/PromptList.tsx:53-62 | the up button is disabled exactly on the first row, and the down button exactly on the last |

## Left out

- The mutation observer's subscription, the storage-change listener and the script's first run are not modelled. These are event wiring. The callback is modelled with the composer it finds and the prompt list as parameters.
- Awaiting the prompt list is not modelled. The list `getPrompts` answers is a parameter of `InjectPromptButtons`.
- Timing is not modelled: the bar id's `Date.now()` suffix is a constructor parameter, and the fresh prompt id is a parameter of the form's submit.
- Notifications and their three-second timer are not modelled.
- Button styling, hover handlers and the click wiring are not modelled. The click's effect is `InsertTextAtCursorPosition`.
- The settings tab's API-key handler is not modelled. It writes only the settings key, which `SaveUserSettings` models.
- Options.OptionsPage.LoadData: the loaded settings are not kept on the page; only the key handler reads them.
- The input `onChange` setters of the form and the colour and icon pickers are not modelled. They set a single field.
- The categorisation service itself (src/utils/openaiApi.ts) is not part of this model. Its answer is a parameter: a result or a thrown call.
- The `Replace All`, `Merge New` and cancel buttons of the import preview are not modelled. They pass no state of the modal.
- Options.OptionsPage.ReorderPrompt requires the id to be in the list. The page only passes ids of listed rows. For an unknown id, the written code's `splice(-1, 1)` would move the last prompt.
- CategorySuggestions.FetchCategories gives the state the handler settles in. The intermediate "loading" render is not modelled.
- Storage.Fetch: a stored value counts as present when it is truthy. Falsy stored values (`0`, `""`, `false`) are treated as absent keys.
- Insertion.InputElement.InsertTextAtCursorPosition: the range is at child granularity of the editor element. The `innerText` getter and setter are the `Render` and `Fragment` functions. Offsets inside a text node and nested elements are not modelled.
- Setting `innerText` is modelled as the `<br>`-separated fragment. Carriage returns are not treated as line breaks.
- Strings.Truncate: lengths count Unicode scalar values, while JavaScript's `length` and `substring` count UTF-16 code units. A text with characters outside the Basic Multilingual Plane (emoji) is cut later than in the source, and never inside a surrogate pair.
- ContentScript.CreatePromptButton: the 15-character label cut counts Unicode scalar values rather than UTF-16 code units, as for `Truncate`.
- PromptList.RowOf: the 50-character preview counts Unicode scalar values rather than UTF-16 code units, as for `Truncate`.
- Options.OptionsPage.AddPrompt, Options.OptionsPage.UpdatePrompt, Options.OptionsPage.DeletePrompt, Options.OptionsPage.ReorderPrompt: the handlers run one after another. In the source each computes from the rendered list and sets it only after the awaited save, so two overlapping clicks both start from the same list and the later save drops the earlier change. That interleaving is not modelled.
- ContentScript.InsertAfter: elements are modelled as siblings under one parent. Nested elements, and the clean-up finding bars anywhere in the document tree, are modelled on that flat list.
- ImportConfirm.ImportModal.ToggleSelect keeps the selection within the incoming ids only for an incoming id, the only kind the modal's checkboxes pass.

## Findings

| source | as written | input that shows it | evidently intended | confidence | as-written member | corrected member |
|---|---|---|---|---|---|---|
| src/utils/storage.ts:49-52 | `initializeStorage` tests the answer of `getStorageData`, which always holds both fields (the defaults when storage is empty), so the defaults are never written | fresh install; save an API key from the settings tab, then add a first prompt: `savePrompts` finds `local` incomplete, falls back to the defaults, and writes the null key over the saved one | write the defaults when `local` lacks either key, so a later prompt save keeps the saved settings | medium, not executed | Storage.FirstSaveDropsSettingsAfterInit | Storage.FirstSaveKeepsSettingsAfterIntendedInit |
| src/options/components/ImportConfirmModal.tsx:57-68 | select-all/none and "Select None" compare the selected id count with the number of incoming prompts | an import file with two prompts sharing one id: after "Select All" one id is selected against a length of two, so "Select None" never shows and the toggle never clears the selection | decide by whether every incoming id is selected | low, not executed | ImportConfirm.DuplicateIdsNeverDeselect | ImportConfirm.IntendedSelectAllThenNone |
| src/content-scripts/contentScript.ts:177-181 | the line-break test looks for `"\n"` at the end of `textContent` before the offset, but the editor separates lines with `<br>`, which adds nothing to `textContent` | the caret right after a `<br>` (e.g. after `a` and a `<br>`): a second `<br>` goes in, and the editor reads `"a\n\n"` then the text, an empty line | skip the `<br>` when what the editor shows before the offset is empty or already ends with a line break | low, not executed | Insertion.BreakAfterBrAddsEmptyLine | Insertion.IntendedInsertionStartsLine |
