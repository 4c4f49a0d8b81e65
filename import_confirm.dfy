/**
 * The import preview (src/options/components/ImportConfirmModal.tsx): which
 * incoming prompts are expanded and which are selected, the select-all/none
 * toggle, and what "Replace Selected" hands back.
 */
module ImportConfirm {
  import opened Wrappers
  import opened Storage
  import opened Options

  /** The id set `new Set(importedPrompts.map(p => p.id))`. */
  function Ids(prompts: seq<Prompt>): (r: set<string>)
    ensures forall x :: x in r <==> exists i :: 0 <= i < |prompts| && prompts[i].id == x
    ensures |r| <= |prompts|
  {
    if prompts == [] then {}
    else
      var init := prompts[..|prompts| - 1];
      assert forall i :: 0 <= i < |init| ==> init[i] == prompts[i];
      Ids(init) + {prompts[|prompts| - 1].id}
  }

  /** Distinct ids give as many ids as prompts. */
  lemma {:induction false} DistinctIdsCount(prompts: seq<Prompt>)
    requires DistinctIds(prompts)
    ensures |Ids(prompts)| == |prompts|
  {
    if prompts != [] {
      var init := prompts[..|prompts| - 1];
      assert DistinctIds(init) by {
        forall i, j | 0 <= i < j < |init| ensures init[i].id != init[j].id {
          assert init[i] == prompts[i] && init[j] == prompts[j];
        }
      }
      DistinctIdsCount(init);
      var last := prompts[|prompts| - 1].id;
      assert last !in Ids(init) by {
        forall i | 0 <= i < |init| ensures init[i].id != last {
          assert init[i] == prompts[i];
        }
      }
      assert Ids(prompts) == Ids(init) + {last};
    }
  }

  /**
   * A copy of `s` with `x` deleted when present and added when absent: `x`
   * flips membership and no other element does.
   */
  function Toggled(s: set<string>, x: string): (r: set<string>)
    ensures x in r <==> x !in s
    ensures forall y :: y != x ==> (y in r <==> y in s)
  {
    if x in s then s - {x} else s + {x}
  }

  /** Toggling the same id twice restores the set. */
  lemma ToggledTwice(s: set<string>, x: string)
    ensures Toggled(Toggled(s, x), x) == s
  {
  }

  /**
   * handleSelectToggleAll as written: nothing selected when the selected count
   * equals the number of incoming prompts, every incoming id otherwise.
   */
  function AllToggled(selected: set<string>, imported: seq<Prompt>): (r: set<string>)
    ensures |selected| == |imported| ==> r == {}
    ensures |selected| != |imported| ==> forall x :: x in r <==> exists i :: 0 <= i < |imported| && imported[i].id == x
  {
    if |selected| == |imported| then {} else Ids(imported)
  }

  /** areAllSelected: the count matches and the list is not empty. */
  function AllSelected(selected: set<string>, imported: seq<Prompt>): (b: bool)
    ensures b ==> imported != [] && |selected| == |imported|
    ensures imported != [] && |selected| == |imported| ==> b
  {
    |selected| == |imported| && |imported| > 0
  }

  /** A subset as large as its superset is the superset. */
  lemma SubsetOfSameSize(a: set<string>, b: set<string>)
    requires a <= b && |a| == |b|
    ensures a == b
  {
    assert b == a + (b - a);
    assert |b| == |a| + |b - a|;
    assert b - a == {};
  }

  /**
   * With distinct incoming ids and a selection drawn from them, "all
   * selected" means that every incoming prompt is selected.
   */
  lemma AllSelectedMeansEverySelected(selected: set<string>, imported: seq<Prompt>)
    requires DistinctIds(imported) && selected <= Ids(imported)
    ensures AllSelected(selected, imported) <==> imported != [] && selected == Ids(imported)
  {
    DistinctIdsCount(imported);
    if |selected| == |imported| {
      SubsetOfSameSize(selected, Ids(imported));
    }
  }

  /**
   * With distinct incoming ids, select-all from nothing selects every
   * incoming prompt, and the toggle then clears the selection again.
   */
  lemma SelectAllThenNone(imported: seq<Prompt>)
    requires DistinctIds(imported) && imported != []
    ensures var all := AllToggled({}, imported);
      all == Ids(imported) && AllSelected(all, imported) && AllToggled(all, imported) == {}
  {
    DistinctIdsCount(imported);
  }

  /**
   * Two incoming prompts with the same id: once both are selected the count
   * stays one short, so "Select None" never shows and the toggle selects
   * everything again instead of clearing.
   */
  lemma DuplicateIdsNeverDeselect(p: Prompt)
    ensures var imported := [p, p];
      var all := AllToggled({}, imported);
      all == {p.id} && !AllSelected(all, imported) && AllToggled(all, imported) == all
  {
    var imported := [p, p];
    assert Ids(imported) == {p.id};
  }

  /** The toggle decided by whether every incoming prompt is selected rather than by a count. */
  function AllToggledIntended(selected: set<string>, imported: seq<Prompt>): (r: set<string>)
    ensures r == {} || r == Ids(imported)
    ensures Ids(imported) <= selected ==> r == {}
    ensures !(Ids(imported) <= selected) ==> r == Ids(imported)
  {
    if Ids(imported) <= selected then {} else Ids(imported)
  }

  /** "Select All" shown exactly when some incoming prompt is unselected. */
  function AllSelectedIntended(selected: set<string>, imported: seq<Prompt>): (b: bool)
    ensures b <==> imported != [] && forall i :: 0 <= i < |imported| ==> imported[i].id in selected
  {
    imported != [] && Ids(imported) <= selected
  }

  /**
   * The intended toggle alternates for every incoming list, duplicates
   * included: from nothing it selects every prompt, and from there it clears.
   */
  lemma IntendedSelectAllThenNone(imported: seq<Prompt>)
    requires imported != []
    ensures var all := AllToggledIntended({}, imported);
      all == Ids(imported) && AllSelectedIntended(all, imported) && AllToggledIntended(all, imported) == {}
  {
    assert imported[0].id in Ids(imported);
  }

  /** With distinct ids and a selection drawn from them, the intended toggle is the written one. */
  lemma IntendedAgreesWhenDistinct(selected: set<string>, imported: seq<Prompt>)
    requires DistinctIds(imported) && selected <= Ids(imported)
    ensures AllToggledIntended(selected, imported) == AllToggled(selected, imported)
    ensures AllSelectedIntended(selected, imported) == AllSelected(selected, imported)
  {
    AllSelectedMeansEverySelected(selected, imported);
    if |selected| == |imported| {
      assert selected == Ids(imported);
    }
  }

  /** The modal's state over a fixed list of incoming prompts. */
  class ImportModal {
    const imported: seq<Prompt>
    var expandedIds: set<string>
    var selectedIds: set<string>

    /** Only incoming prompts are ever selected: their checkboxes are the only ones shown. */
    ghost predicate Valid()
      reads this
    {
      selectedIds <= Ids(imported)
    }

    /** A modal opens with nothing expanded and nothing selected. */
    constructor (imported: seq<Prompt>)
      ensures Valid()
      ensures this.imported == imported && expandedIds == {} && selectedIds == {}
    {
      this.imported := imported;
      expandedIds := {};
      selectedIds := {};
    }

    /** toggleExpand: `id` flips in the expanded set; the selection is untouched. */
    method ToggleExpand(id: string)
      modifies this`expandedIds
      ensures expandedIds == Toggled(old(expandedIds), id)
    {
      var newSet := expandedIds;
      if id in newSet {
        newSet := newSet - {id};
      } else {
        newSet := newSet + {id};
      }
      expandedIds := newSet;
    }

    /**
     * toggleSelect: `id` flips in the selected set; the expanded set is
     * untouched. Toggling the id of an incoming prompt keeps the selection
     * within the incoming ids.
     */
    method ToggleSelect(id: string)
      modifies this`selectedIds
      ensures selectedIds == Toggled(old(selectedIds), id)
      ensures old(Valid()) && id in Ids(imported) ==> Valid()
    {
      var newSet := selectedIds;
      if id in newSet {
        newSet := newSet - {id};
      } else {
        newSet := newSet + {id};
      }
      selectedIds := newSet;
    }

    /** handleSelectToggleAll as written. */
    method SelectToggleAll()
      modifies this`selectedIds
      ensures Valid()
      ensures selectedIds == AllToggled(old(selectedIds), imported)
    {
      if |selectedIds| == |imported| {
        selectedIds := {};
      } else {
        selectedIds := Ids(imported);
      }
    }

    /** handleSelectToggleAll decided by whether every incoming prompt is selected. */
    method SelectToggleAllIntended()
      modifies this`selectedIds
      ensures Valid()
      ensures selectedIds == AllToggledIntended(old(selectedIds), imported)
    {
      if Ids(imported) <= selectedIds {
        selectedIds := {};
      } else {
        selectedIds := Ids(imported);
      }
    }

    /**
     * The "Replace Selected" button: disabled (nothing happens) while nothing
     * is selected, otherwise it hands on the selected set as it stands.
     */
    method ReplaceSelectedClick() returns (passed: Option<set<string>>)
      ensures passed.Some? <==> selectedIds != {}
      ensures passed.Some? ==> passed.value == selectedIds
      ensures Valid() && passed.Some? ==> passed.value <= Ids(imported)
    {
      if |selectedIds| > 0 {
        passed := Some(selectedIds);
      } else {
        passed := None;
      }
    }
  }
}
