/**
 * The options page's prompt-list handlers (src/options/OptionsPage.tsx): add,
 * update, delete and reorder, the edit and tab state, and the save-before-set
 * discipline every list change follows.
 */
module Options {
  import opened Wrappers
  import opened Storage

  /** handleAddPrompt's list: the new prompt after all the others. */
  function Appended(prompts: seq<Prompt>, p: Prompt): (r: seq<Prompt>)
    ensures |r| == |prompts| + 1 && r[|prompts|] == p
    ensures r[..|prompts|] == prompts
  {
    prompts + [p]
  }

  /** handleUpdatePrompt's list: every prompt with the updated prompt's id is replaced by it. */
  function ReplaceById(prompts: seq<Prompt>, updated: Prompt): (r: seq<Prompt>)
    ensures |r| == |prompts|
    ensures forall i :: 0 <= i < |prompts| && prompts[i].id == updated.id ==> r[i] == updated
    ensures forall i :: 0 <= i < |prompts| && prompts[i].id != updated.id ==> r[i] == prompts[i]
  {
    if prompts == [] then []
    else [if prompts[0].id == updated.id then updated else prompts[0]] + ReplaceById(prompts[1..], updated)
  }

  /** handleDeletePrompt's list: the prompts whose id differs, in their order. */
  function RemoveById(prompts: seq<Prompt>, id: string): (r: seq<Prompt>)
    ensures |r| <= |prompts|
    ensures forall p :: p in r <==> p in prompts && p.id != id
  {
    if prompts == [] then []
    else (if prompts[0].id != id then [prompts[0]] else []) + RemoveById(prompts[1..], id)
  }

  /** Deletion works piecewise: the survivors keep their relative order. */
  lemma {:induction false} RemoveByIdAppend(a: seq<Prompt>, b: seq<Prompt>, id: string)
    ensures RemoveById(a + b, id) == RemoveById(a, id) + RemoveById(b, id)
    decreases |a|
  {
    if a == [] {
      assert a + b == b;
    } else {
      assert (a + b)[1..] == a[1..] + b;
      RemoveByIdAppend(a[1..], b, id);
    }
  }

  /** Deleting a list that does not hold the id changes nothing. */
  lemma {:induction false} RemoveAbsent(prompts: seq<Prompt>, id: string)
    requires forall i :: 0 <= i < |prompts| ==> prompts[i].id != id
    ensures RemoveById(prompts, id) == prompts
    decreases |prompts|
  {
    if prompts != [] {
      RemoveAbsent(prompts[1..], id);
      assert prompts == [prompts[0]] + prompts[1..];
    }
  }

  /** Deleting a just-added prompt whose id was new gives back the list before the add. */
  lemma DeleteUndoesAdd(prompts: seq<Prompt>, p: Prompt)
    requires forall i :: 0 <= i < |prompts| ==> prompts[i].id != p.id
    ensures RemoveById(Appended(prompts, p), p.id) == prompts
  {
    RemoveByIdAppend(prompts, [p], p.id);
    RemoveAbsent(prompts, p.id);
    assert [p][1..] == [];
  }

  /** Updating and then deleting the same id is the same as deleting it: no other prompt is touched. */
  lemma {:induction false} UpdateThenDelete(prompts: seq<Prompt>, updated: Prompt)
    ensures RemoveById(ReplaceById(prompts, updated), updated.id) == RemoveById(prompts, updated.id)
    decreases |prompts|
  {
    if prompts != [] {
      UpdateThenDelete(prompts[1..], updated);
      assert ReplaceById(prompts, updated)[1..] == ReplaceById(prompts[1..], updated);
    }
  }

  /** Applying the same update twice is the same as applying it once. */
  lemma UpdateIdempotent(prompts: seq<Prompt>, updated: Prompt)
    ensures ReplaceById(ReplaceById(prompts, updated), updated) == ReplaceById(prompts, updated)
  {
  }

  /** The two move buttons. */
  datatype Direction = Up | Down

  /** `prompts.findIndex(p => p.id === id)`, with `None` for -1. */
  function FindIndex(prompts: seq<Prompt>, id: string): (r: Option<nat>)
    ensures r.Some? ==> r.value < |prompts| && prompts[r.value].id == id
    ensures r.Some? ==> forall j :: 0 <= j < r.value ==> prompts[j].id != id
    ensures r.None? <==> forall j :: 0 <= j < |prompts| ==> prompts[j].id != id
  {
    if prompts == [] then None
    else if prompts[0].id == id then Some(0)
    else match FindIndex(prompts[1..], id)
      case None => None
      case Some(i) => Some(i + 1)
  }

  /** The list with the prompts at `i` and `j` exchanged. */
  function Swapped(prompts: seq<Prompt>, i: nat, j: nat): (r: seq<Prompt>)
    requires i < |prompts| && j < |prompts|
    ensures |r| == |prompts| && r[i] == prompts[j] && r[j] == prompts[i]
    ensures forall k :: 0 <= k < |prompts| && k != i && k != j ==> r[k] == prompts[k]
    ensures multiset(r) == multiset(prompts)
  {
    prompts[i := prompts[j]][j := prompts[i]]
  }

  /** Whether the move is one of the refused ones: up from the top, down from the bottom. */
  predicate AtBoundary(prompts: seq<Prompt>, index: nat, direction: Direction)
  {
    (direction == Up && index == 0) || (direction == Down && index == |prompts| - 1)
  }

  /**
   * handleReorderPrompt's list for an id that is in the list: unchanged at
   * the boundaries, otherwise the prompt swapped with its neighbour.
   */
  function Reordered(prompts: seq<Prompt>, id: string, direction: Direction): (r: seq<Prompt>)
    requires FindIndex(prompts, id).Some?
    ensures |r| == |prompts| && multiset(r) == multiset(prompts)
    ensures AtBoundary(prompts, FindIndex(prompts, id).value, direction) ==> r == prompts
    ensures var i := FindIndex(prompts, id).value;
      !AtBoundary(prompts, i, direction) ==>
        var j := if direction == Up then i - 1 else i + 1;
        && 0 <= j < |prompts| && r[j] == prompts[i] && r[i] == prompts[j]
        && forall k :: 0 <= k < |prompts| && k != i && k != j ==> r[k] == prompts[k]
  {
    var i := FindIndex(prompts, id).value;
    if AtBoundary(prompts, i, direction) then prompts
    else Swapped(prompts, i, if direction == Up then i - 1 else i + 1)
  }

  /** Prompt ids are pairwise distinct. */
  predicate DistinctIds(prompts: seq<Prompt>)
  {
    forall i, j :: 0 <= i < j < |prompts| ==> prompts[i].id != prompts[j].id
  }

  /** With distinct ids, the position findIndex answers is the prompt's only position. */
  lemma FindIndexDistinct(prompts: seq<Prompt>, k: nat)
    requires DistinctIds(prompts) && k < |prompts|
    ensures FindIndex(prompts, prompts[k].id) == Some(k)
  {
    var r := FindIndex(prompts, prompts[k].id);
    assert r.Some?;
    SameIdSamePosition(prompts, r.value, k);
  }

  /** With distinct ids, two positions holding the same id are the same position. */
  lemma SameIdSamePosition(prompts: seq<Prompt>, a: nat, b: nat)
    requires DistinctIds(prompts) && a < |prompts| && b < |prompts|
    requires prompts[a].id == prompts[b].id
    ensures a == b
  {
  }

  /** With distinct ids, two different positions hold different ids. */
  lemma DistinctPositions(prompts: seq<Prompt>, a: nat, b: nat)
    requires DistinctIds(prompts) && a < |prompts| && b < |prompts| && a != b
    ensures prompts[a].id != prompts[b].id
  {
  }

  /** With distinct ids, a move leaves the list as it is exactly when it is refused at the boundary. */
  lemma ReorderNoOpIffBoundary(prompts: seq<Prompt>, index: nat, direction: Direction)
    requires DistinctIds(prompts) && index < |prompts|
    ensures FindIndex(prompts, prompts[index].id) == Some(index)
    ensures Reordered(prompts, prompts[index].id, direction) == prompts <==> AtBoundary(prompts, index, direction)
  {
    FindIndexDistinct(prompts, index);
    if !AtBoundary(prompts, index, direction) {
      var j := if direction == Up then index - 1 else index + 1;
      var r := Reordered(prompts, prompts[index].id, direction);
      assert r[j] == prompts[index];
      DistinctPositions(prompts, j, index);
      assert r[j] != prompts[j];
    }
  }

  /** Moving a prompt down (from above the bottom) and then up again restores the list, when ids are distinct. */
  lemma DownThenUpRestores(prompts: seq<Prompt>, id: string)
    requires DistinctIds(prompts) && FindIndex(prompts, id).Some?
    requires !AtBoundary(prompts, FindIndex(prompts, id).value, Down)
    ensures var moved := Reordered(prompts, id, Down);
      FindIndex(moved, id).Some? && Reordered(moved, id, Up) == prompts
  {
    var i := FindIndex(prompts, id).value;
    var moved := Reordered(prompts, id, Down);
    assert moved == Swapped(prompts, i, i + 1);
    SwappedDistinct(prompts, i, i + 1);
    FindIndexDistinct(moved, i + 1);
    assert moved[i + 1] == prompts[i];
    SwapBack(prompts, i, i + 1);
  }

  /** Exchanging two positions keeps ids distinct. */
  lemma SwappedDistinct(prompts: seq<Prompt>, i: nat, j: nat)
    requires DistinctIds(prompts) && i < |prompts| && j < |prompts|
    ensures DistinctIds(Swapped(prompts, i, j))
  {
    var moved := Swapped(prompts, i, j);
    forall a, b | 0 <= a < b < |moved| ensures moved[a].id != moved[b].id {
      var a' := if a == i then j else if a == j then i else a;
      var b' := if b == i then j else if b == j then i else b;
      assert moved[a] == prompts[a'] && moved[b] == prompts[b'];
      DistinctPositions(prompts, a', b');
    }
  }

  /** Exchanging the same two positions twice restores the list. */
  lemma SwapBack(prompts: seq<Prompt>, i: nat, j: nat)
    requires i < |prompts| && j < |prompts|
    ensures Swapped(Swapped(prompts, i, j), j, i) == prompts
  {
    var back := Swapped(Swapped(prompts, i, j), j, i);
    assert forall k :: 0 <= k < |prompts| ==> back[k] == prompts[k];
  }

  /**
   * The two splices on the copy: take the prompt out at `index`, put it back
   * in at `newIndex`. For neighbouring positions that is an exchange.
   */
  method SpliceMove(prompts: seq<Prompt>, index: nat, newIndex: nat) returns (newPrompts: seq<Prompt>)
    requires index < |prompts| && newIndex < |prompts|
    requires newIndex == index + 1 || index == newIndex + 1
    ensures newPrompts == Swapped(prompts, index, newIndex)
  {
    newPrompts := prompts;
    var removed := newPrompts[index];
    newPrompts := newPrompts[..index] + newPrompts[index + 1..];
    newPrompts := newPrompts[..newIndex] + [removed] + newPrompts[newIndex..];
  }

  /** The options page's tabs. */
  datatype Tab = PromptsTab | SettingsTab | CategorizeTab

  /**
   * The options page's state. Every list change is saved through `storage`
   * first; the in-memory list changes only when the save succeeded.
   */
  class OptionsPage {
    var prompts: seq<Prompt>
    var activeTab: Tab
    var editingPrompt: Option<Prompt>
    const storage: ChromeStorage

    /** The first render, before the stored prompts load. */
    constructor (storage: ChromeStorage)
      ensures prompts == [] && activeTab == PromptsTab && editingPrompt == None
      ensures this.storage == storage
    {
      prompts := [];
      activeTab := PromptsTab;
      editingPrompt := None;
      this.storage := storage;
    }

    /** The load effect: the stored list becomes the page's list. */
    method LoadData(io: ReadIo)
      modifies this`prompts, storage`local
      ensures prompts == Fetch(old(storage.local), storage.sync, storage.defaultData, io).data.prompts
      ensures storage.local == Fetch(old(storage.local), storage.sync, storage.defaultData, io).local
    {
      prompts := storage.GetPrompts(io);
    }

    /** Saves `updated` and adopts it only when the save succeeded. */
    method Commit(updated: seq<Prompt>, io: ReadIo, write: bool) returns (ok: bool)
      modifies this`prompts, storage`local, storage`defaultData
      ensures Saved(ok, storage.local, storage.defaultData)
              == SaveEffect(old(storage.local), storage.sync, old(storage.defaultData), updated, io, write)
      ensures prompts == if ok then updated else old(prompts)
    {
      ok := storage.SavePrompts(updated, io, write);
      if ok {
        prompts := updated;
      }
    }

    /** handleAddPrompt. */
    method AddPrompt(p: Prompt, io: ReadIo, write: bool) returns (ok: bool)
      modifies this`prompts, storage`local, storage`defaultData
      ensures ok == write
      ensures Saved(ok, storage.local, storage.defaultData)
              == SaveEffect(old(storage.local), storage.sync, old(storage.defaultData), Appended(old(prompts), p), io, write)
      ensures prompts == if ok then Appended(old(prompts), p) else old(prompts)
    {
      ok := Commit(Appended(prompts, p), io, write);
    }

    /** handleUpdatePrompt: a successful save also closes the edit. */
    method UpdatePrompt(updated: Prompt, io: ReadIo, write: bool) returns (ok: bool)
      modifies this`prompts, this`editingPrompt, storage`local, storage`defaultData
      ensures ok == write
      ensures Saved(ok, storage.local, storage.defaultData)
              == SaveEffect(old(storage.local), storage.sync, old(storage.defaultData), ReplaceById(old(prompts), updated), io, write)
      ensures prompts == if ok then ReplaceById(old(prompts), updated) else old(prompts)
      ensures editingPrompt == if ok then None else old(editingPrompt)
    {
      ok := Commit(ReplaceById(prompts, updated), io, write);
      if ok {
        editingPrompt := None;
      }
    }

    /** handleDeletePrompt. */
    method DeletePrompt(id: string, io: ReadIo, write: bool) returns (ok: bool)
      modifies this`prompts, storage`local, storage`defaultData
      ensures ok == write
      ensures Saved(ok, storage.local, storage.defaultData)
              == SaveEffect(old(storage.local), storage.sync, old(storage.defaultData), RemoveById(old(prompts), id), io, write)
      ensures prompts == if ok then RemoveById(old(prompts), id) else old(prompts)
    {
      ok := Commit(RemoveById(prompts, id), io, write);
    }

    /**
     * handleReorderPrompt for an id in the list. A move past either end
     * returns before anything is saved; otherwise the spliced copy is saved
     * and then shown.
     */
    method ReorderPrompt(id: string, direction: Direction, io: ReadIo, write: bool)
      requires FindIndex(prompts, id).Some?
      modifies this`prompts, storage`local, storage`defaultData
      ensures AtBoundary(old(prompts), FindIndex(old(prompts), id).value, direction) ==>
        && prompts == old(prompts)
        && storage.local == old(storage.local) && storage.defaultData == old(storage.defaultData)
      ensures !AtBoundary(old(prompts), FindIndex(old(prompts), id).value, direction) ==>
        && Saved(write, storage.local, storage.defaultData)
           == SaveEffect(old(storage.local), storage.sync, old(storage.defaultData), Reordered(old(prompts), id, direction), io, write)
        && prompts == if write then Reordered(old(prompts), id, direction) else old(prompts)
    {
      var index := FindIndex(prompts, id).value;
      if AtBoundary(prompts, index, direction) {
        return;
      }
      var newIndex := if direction == Up then index - 1 else index + 1;
      var newPrompts := SpliceMove(prompts, index, newIndex);
      var _ := Commit(newPrompts, io, write);
    }

    /** handleEditPrompt: the prompt goes into the form and the Prompts tab opens. */
    method EditPrompt(p: Prompt)
      modifies this`editingPrompt, this`activeTab
      ensures editingPrompt == Some(p) && activeTab == PromptsTab
    {
      editingPrompt := Some(p);
      activeTab := PromptsTab;
    }

    /** The form's cancel button: the edit is dropped. */
    method CancelEdit()
      modifies this`editingPrompt
      ensures editingPrompt == None
    {
      editingPrompt := None;
    }

    /** The form's submit goes to the update handler while editing and to the add handler otherwise. */
    method SubmitPrompt(p: Prompt, io: ReadIo, write: bool) returns (ok: bool)
      modifies this`prompts, this`editingPrompt, storage`local, storage`defaultData
      ensures ok == write
      ensures Saved(ok, storage.local, storage.defaultData)
              == SaveEffect(old(storage.local), storage.sync, old(storage.defaultData),
                            if old(editingPrompt).Some? then ReplaceById(old(prompts), p) else Appended(old(prompts), p),
                            io, write)
      ensures old(editingPrompt).Some? ==>
        prompts == (if ok then ReplaceById(old(prompts), p) else old(prompts))
        && editingPrompt == (if ok then None else old(editingPrompt))
      ensures old(editingPrompt).None? ==>
        prompts == (if ok then Appended(old(prompts), p) else old(prompts)) && editingPrompt == None
    {
      if editingPrompt.Some? {
        ok := UpdatePrompt(p, io, write);
      } else {
        ok := AddPrompt(p, io, write);
      }
    }

    /** handleApplyCategorySuggestions: the list is saved and, once saved, shown on the Prompts tab. */
    method ApplyCategorySuggestions(updated: seq<Prompt>, io: ReadIo, write: bool) returns (ok: bool)
      modifies this`prompts, this`activeTab, storage`local, storage`defaultData
      ensures ok == write
      ensures Saved(ok, storage.local, storage.defaultData)
              == SaveEffect(old(storage.local), storage.sync, old(storage.defaultData), updated, io, write)
      ensures prompts == (if ok then updated else old(prompts))
      ensures activeTab == (if ok then PromptsTab else old(activeTab))
    {
      ok := Commit(updated, io, write);
      if ok {
        activeTab := PromptsTab;
      }
    }

    /** A click on a tab header. */
    method SelectTab(tab: Tab)
      modifies this`activeTab
      ensures activeTab == tab
    {
      activeTab := tab;
    }
  }
}
