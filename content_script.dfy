/**
 * The prompt bar of the content script (src/content-scripts/contentScript.ts):
 * the composer watcher, the clean-up of stray bars, and the bar injector.
 *
 * The document is a flat list of sibling elements (the composer and the
 * elements beside it under one parent), each with an identity (`node`), a
 * class list, an id, and (for a bar) its buttons. Nesting is not modelled:
 * `insertBefore(e, target.nextSibling)` puts `e` after the target's whole
 * subtree, which in a list of siblings is the next position. The
 * script's module state is `observedComposer` and `quickPromptsContainer`,
 * both held as element identities. An element that is in the sequence has a
 * parent; one that is not is detached.
 */
module ContentScript {
  import opened Wrappers
  import opened Strings
  import opened Storage

  /** The class every prompt bar carries, whichever script instance made it. */
  const MarkerClass: string := "chatgpt-quick-prompts-container"
  /** The background of a button whose prompt has no colour. */
  const DefaultButtonBackground: string := "#444654"
  /** Characters of the prompt text shown on an unnamed prompt's button. */
  const LabelLength: nat := 15

  /** A prompt button: its text, its tooltip and its background. */
  datatype Button = Button(caption: string, title: string, background: string)

  /**
   * createPromptButton: the label is the prompt's name, or for an unnamed
   * prompt its text cut to 15 characters plus "..."; the tooltip is the
   * whole text; the background is the prompt's colour or the default.
   */
  function CreatePromptButton(p: Prompt): (b: Button)
    ensures b.title == p.text
    ensures b.background == if p.color != "" then p.color else DefaultButtonBackground
    ensures p.name != "" ==> b.caption == p.name
    ensures p.name == "" && |p.text| <= LabelLength ==> b.caption == p.text
    ensures p.name == "" && |p.text| > LabelLength ==>
      |b.caption| == LabelLength + 3 && b.caption[..LabelLength] == p.text[..LabelLength] && b.caption[LabelLength..] == "..."
  {
    Button(if p.name != "" then p.name else Truncate(p.text, LabelLength),
           p.text,
           if p.color != "" then p.color else DefaultButtonBackground)
  }

  /** An unnamed prompt with a long text shows its first 15 characters and an ellipsis. */
  lemma ExplainQuantumButton()
    ensures var p := Prompt("p1", "", "Explain quantum computing in simple terms", "", "", "");
      CreatePromptButton(p) == Button("Explain quantum...", p.text, "#444654")
  {
    var text := "Explain quantum computing in simple terms";
    assert text[..15] == "Explain quantum";
  }

  /** An element of the document. */
  datatype Element = Element(node: nat, classes: set<string>, id: string, buttons: seq<Button>)

  /** The element carries the bar class (what `.chatgpt-quick-prompts-container` selects). */
  predicate Marked(e: Element)
  {
    MarkerClass in e.classes
  }

  /** Element identities are distinct and below `bound`, the next one to allocate. */
  predicate Keyed(ns: seq<Element>, bound: nat)
  {
    && (forall i :: 0 <= i < |ns| ==> ns[i].node < bound)
    && (forall i, j :: 0 <= i < j < |ns| ==> ns[i].node != ns[j].node)
  }

  lemma KeyedTail(ns: seq<Element>, bound: nat)
    requires Keyed(ns, bound) && ns != []
    ensures Keyed(ns[1..], bound)
    ensures forall k :: 0 <= k < |ns| - 1 ==> ns[1..][k].node != ns[0].node
  {
    var tail := ns[1..];
    forall i, j | 0 <= i < j < |tail| ensures tail[i].node != tail[j].node {
      assert tail[i] == ns[i + 1] && tail[j] == ns[j + 1];
    }
    forall k | 0 <= k < |tail| ensures tail[k].node != ns[0].node {
      assert tail[k] == ns[k + 1];
    }
  }

  lemma KeyedCons(x: Element, rest: seq<Element>, bound: nat)
    requires x.node < bound && Keyed(rest, bound)
    requires forall k :: 0 <= k < |rest| ==> rest[k].node != x.node
    ensures Keyed([x] + rest, bound)
  {
    var ns := [x] + rest;
    forall i, j | 0 <= i < j < |ns| ensures ns[i].node != ns[j].node {
      assert ns[j] == rest[j - 1];
      if i > 0 {
        assert ns[i] == rest[i - 1];
      }
    }
  }

  /** Every element carrying `id` is the one `own` designates. */
  predicate OwnTracked(ns: seq<Element>, id: string, own: Option<nat>)
  {
    forall i :: 0 <= i < |ns| && ns[i].id == id ==> own == Some(ns[i].node)
  }

  /** At most one element carries `id`. */
  predicate AtMostOneWithId(ns: seq<Element>, id: string)
  {
    forall i, j :: 0 <= i < |ns| && 0 <= j < |ns| && ns[i].id == id && ns[j].id == id ==> i == j
  }

  /** The elements that `keep` accepts, in document order. */
  function Filter(ns: seq<Element>, keep: Element -> bool): (r: seq<Element>)
    ensures (forall i :: 0 <= i < |ns| ==> keep(ns[i])) ==> r == ns
    ensures |r| <= |ns|
  {
    if ns == [] then []
    else (if keep(ns[0]) then [ns[0]] else []) + Filter(ns[1..], keep)
  }

  /** The kept elements are exactly the elements `keep` accepts. */
  lemma {:induction false} FilterMembers(ns: seq<Element>, keep: Element -> bool)
    ensures forall e :: e in Filter(ns, keep) <==> e in ns && keep(e)
    decreases |ns|
  {
    if ns != [] {
      FilterMembers(ns[1..], keep);
      assert ns == [ns[0]] + ns[1..];
    }
  }

  lemma {:induction false} FilterAppend(a: seq<Element>, b: seq<Element>, keep: Element -> bool)
    ensures Filter(a + b, keep) == Filter(a, keep) + Filter(b, keep)
    decreases |a|
  {
    if a == [] {
      assert a + b == b;
    } else {
      var head := if keep(a[0]) then [a[0]] else [];
      assert (a + b)[0] == a[0] && (a + b)[1..] == a[1..] + b;
      assert Filter(a + b, keep) == head + Filter(a[1..] + b, keep);
      FilterAppend(a[1..], b, keep);
      assert Filter(a, keep) == head + Filter(a[1..], keep);
    }
  }

  /** Removing elements keeps identities distinct. */
  lemma {:induction false} FilterKeyed(ns: seq<Element>, bound: nat, keep: Element -> bool)
    requires Keyed(ns, bound)
    ensures Keyed(Filter(ns, keep), bound)
    decreases |ns|
  {
    if ns != [] {
      var tail := ns[1..];
      KeyedTail(ns, bound);
      FilterKeyed(tail, bound, keep);
      var rest := Filter(tail, keep);
      FilterMembers(tail, keep);
      if keep(ns[0]) {
        forall k | 0 <= k < |rest| ensures rest[k].node != ns[0].node {
          assert rest[k] in tail;
          var m :| 0 <= m < |tail| && tail[m] == rest[k];
        }
        KeyedCons(ns[0], rest, bound);
      }
    }
  }

  /** Whether cleanupExistingContainers leaves `e` in place: it removes the bars of other instances. */
  predicate SurvivesCleanup(e: Element, ownId: string)
  {
    !(Marked(e) && e.id != ownId)
  }

  /** cleanupExistingContainers: every bar whose id differs from `ownId` is gone, everything else stays in order. */
  function Cleaned(ns: seq<Element>, ownId: string): (r: seq<Element>)
    ensures |r| <= |ns|
  {
    Filter(ns, e => SurvivesCleanup(e, ownId))
  }

  /** `element.remove()` for the element with identity `key`. */
  function Detached(ns: seq<Element>, key: nat): (r: seq<Element>)
    ensures (forall i :: 0 <= i < |ns| ==> ns[i].node != key) ==> r == ns
  {
    Filter(ns, (e: Element) => e.node != key)
  }

  /** The position of the element with identity `key`, if it is in the document. */
  function IndexOf(ns: seq<Element>, key: nat): (r: Option<nat>)
    ensures r.Some? ==> r.value < |ns| && ns[r.value].node == key
    ensures r.Some? ==> forall j :: 0 <= j < r.value ==> ns[j].node != key
    ensures r.None? ==> forall j :: 0 <= j < |ns| ==> ns[j].node != key
  {
    if ns == [] then None
    else if ns[0].node == key then Some(0)
    else match IndexOf(ns[1..], key)
      case None => None
      case Some(i) => Some(i + 1)
  }

  /**
   * `parent.insertBefore(e, target.nextSibling)` when the target has a parent:
   * `e` lands immediately after the target; nothing changes for a detached target.
   */
  function InsertAfter(ns: seq<Element>, target: nat, e: Element): (r: seq<Element>)
    ensures IndexOf(ns, target).None? ==> r == ns
    ensures IndexOf(ns, target).Some? ==>
      var i := IndexOf(ns, target).value;
      |r| == |ns| + 1 && r[..i + 1] == ns[..i + 1] && r[i + 1] == e && r[i + 2..] == ns[i + 1..]
  {
    match IndexOf(ns, target)
    case None => ns
    case Some(i) => ns[..i + 1] + [e] + ns[i + 1..]
  }

  /** The bar built for `prompts`: one button per prompt, in list order. */
  function Bar(key: nat, id: string, prompts: seq<Prompt>): (e: Element)
    ensures Marked(e) && e.id == id && e.node == key
    ensures |e.buttons| == |prompts|
    ensures forall i :: 0 <= i < |prompts| ==> e.buttons[i] == CreatePromptButton(prompts[i])
  {
    Element(key, {MarkerClass}, id, seq(|prompts|, i requires 0 <= i < |prompts| => CreatePromptButton(prompts[i])))
  }

  /** The document after the previous own bar (if any) is removed. */
  function Unmounted(ns: seq<Element>, own: Option<nat>): seq<Element>
  {
    if own.Some? then Detached(ns, own.value) else ns
  }

  /** The clean-up removes exactly the bars of other instances; the own bar and every other element stay. */
  lemma CleanedMembers(ns: seq<Element>, ownId: string)
    ensures forall e :: e in Cleaned(ns, ownId) <==> e in ns && !(Marked(e) && e.id != ownId)
    ensures forall e :: e in ns && e.id == ownId ==> e in Cleaned(ns, ownId)
  {
    FilterMembers(ns, e => SurvivesCleanup(e, ownId));
  }

  /** Removing an element removes exactly the element with that identity. */
  lemma DetachedMembers(ns: seq<Element>, key: nat)
    ensures forall e :: e in Detached(ns, key) <==> e in ns && e.node != key
  {
    FilterMembers(ns, (e: Element) => e.node != key);
  }

  lemma DetachedAppend(a: seq<Element>, b: seq<Element>, key: nat)
    ensures Detached(a + b, key) == Detached(a, key) + Detached(b, key)
  {
    FilterAppend(a, b, (e: Element) => e.node != key);
  }

  lemma CleanedAppend(a: seq<Element>, b: seq<Element>, ownId: string)
    ensures Cleaned(a + b, ownId) == Cleaned(a, ownId) + Cleaned(b, ownId)
  {
    FilterAppend(a, b, e => SurvivesCleanup(e, ownId));
  }

  /** The clean-up keeps the own bar, so the own bar's identity still accounts for every element with its id. */
  lemma CleanedOwnTracked(ns: seq<Element>, ownId: string, own: Option<nat>)
    requires OwnTracked(ns, ownId, own)
    ensures OwnTracked(Cleaned(ns, ownId), ownId, own)
  {
    var r := Cleaned(ns, ownId);
    CleanedMembers(ns, ownId);
    forall i | 0 <= i < |r| && r[i].id == ownId ensures own == Some(r[i].node) {
      assert r[i] in ns;
      var m :| 0 <= m < |ns| && ns[m] == r[i];
    }
  }

  lemma DetachedKeyed(ns: seq<Element>, bound: nat, key: nat)
    requires Keyed(ns, bound)
    ensures Keyed(Detached(ns, key), bound)
  {
    FilterKeyed(ns, bound, (e: Element) => e.node != key);
  }

  lemma CleanedKeyed(ns: seq<Element>, bound: nat, ownId: string)
    requires Keyed(ns, bound)
    ensures Keyed(Cleaned(ns, ownId), bound)
  {
    FilterKeyed(ns, bound, e => SurvivesCleanup(e, ownId));
  }

  /**
   * Inserting an element with a fresh identity keeps identities distinct, and
   * it is the only element with its id when no other element had that id.
   */
  lemma InsertFreshKeyed(ns: seq<Element>, target: nat, e: Element, bound: nat)
    requires Keyed(ns, bound) && e.node == bound
    requires forall k :: 0 <= k < |ns| ==> ns[k].id != e.id
    ensures Keyed(InsertAfter(ns, target, e), bound + 1)
    ensures OwnTracked(InsertAfter(ns, target, e), e.id, Some(e.node))
  {
    if IndexOf(ns, target).Some? {
      InsertAfterPositions(ns, target, e);
      SplicedKeyed(ns, InsertAfter(ns, target, e), IndexOf(ns, target).value, e, bound);
    }
  }

  /** `r` is `ns` with a fresh element `e` placed at `i + 1`: it stays keyed and `e` is the only element with its id. */
  lemma SplicedKeyed(ns: seq<Element>, r: seq<Element>, i: nat, e: Element, bound: nat)
    requires Keyed(ns, bound) && e.node == bound
    requires forall k :: 0 <= k < |ns| ==> ns[k].id != e.id
    requires i < |ns| && |r| == |ns| + 1 && r[i + 1] == e
    requires forall k :: 0 <= k <= i ==> r[k] == ns[k]
    requires forall k :: i + 1 < k < |r| ==> r[k] == ns[k - 1]
    ensures Keyed(r, bound + 1)
    ensures OwnTracked(r, e.id, Some(e.node))
  {
    forall k | 0 <= k < |r| && k != i + 1 ensures r[k].node < bound && r[k].id != e.id {
      if k <= i { assert r[k] == ns[k]; } else { assert r[k] == ns[k - 1]; }
    }
    forall a, b | 0 <= a < b < |r| ensures r[a].node != r[b].node {
      if a != i + 1 && b != i + 1 {
        var a' := if a <= i then a else a - 1;
        var b' := if b <= i then b else b - 1;
        assert r[a] == ns[a'] && r[b] == ns[b'] && a' < b';
      }
    }
  }

  /** Taking the own bar out keeps the document keyed and leaves no element with the bar's id. */
  lemma UnmountedFree(ns: seq<Element>, bound: nat, id: string, own: Option<nat>)
    requires Keyed(ns, bound) && OwnTracked(ns, id, own)
    ensures Keyed(Unmounted(ns, own), bound)
    ensures forall k :: 0 <= k < |Unmounted(ns, own)| ==> Unmounted(ns, own)[k].id != id
  {
    if own.Some? {
      var rest := Detached(ns, own.value);
      DetachedKeyed(ns, bound, own.value);
      DetachedMembers(ns, own.value);
      forall k | 0 <= k < |rest| ensures rest[k].id != id {
        var e := rest[k];
        assert e in ns && e.node != own.value;
        var m :| 0 <= m < |ns| && ns[m] == e;
      }
    }
  }

  /** Where each element ends up after an insertion after the target. */
  lemma InsertAfterPositions(ns: seq<Element>, target: nat, e: Element)
    requires IndexOf(ns, target).Some?
    ensures var i := IndexOf(ns, target).value; var r := InsertAfter(ns, target, e);
      && (forall k :: 0 <= k <= i ==> r[k] == ns[k])
      && r[i + 1] == e
      && (forall k :: i + 1 < k < |r| ==> r[k] == ns[k - 1])
  {
    var i := IndexOf(ns, target).value;
    var r := InsertAfter(ns, target, e);
    forall k | 0 <= k <= i ensures r[k] == ns[k] {
      assert r[k] == r[..i + 1][k];
    }
    forall k | i + 1 < k < |r| ensures r[k] == ns[k - 1] {
      assert r[k] == r[i + 2..][k - (i + 2)];
    }
  }

  /** Removing an element whose identity no other element shares leaves the others in order. */
  lemma DetachedMiddle(done: seq<Element>, c: Element, rest: seq<Element>)
    requires forall k :: 0 <= k < |done| ==> done[k].node != c.node
    requires forall k :: 0 <= k < |rest| ==> rest[k].node != c.node
    ensures Detached(done + ([c] + rest), c.node) == done + rest
  {
    DetachedAppend(done, [c] + rest, c.node);
    DetachedAppend([c], rest, c.node);
    DetachedSelf(c);
    DetachedNone(done, c.node);
    DetachedNone(rest, c.node);
    assert [] + rest == rest;
  }

  lemma DetachedSelf(c: Element)
    ensures Detached([c], c.node) == []
  {
  }

  lemma DetachedNone(ns: seq<Element>, key: nat)
    requires forall k :: 0 <= k < |ns| ==> ns[k].node != key
    ensures Detached(ns, key) == ns
  {
  }

  lemma CleanedSingle(c: Element, ownId: string)
    ensures Cleaned([c], ownId) == if SurvivesCleanup(c, ownId) then [c] else []
  {
    assert [c][1..] == [];
  }

  /** The elements before and after position `i` do not share its identity. */
  lemma Apart(done: seq<Element>, rest: seq<Element>, existing: seq<Element>, i: nat, ownId: string, bound: nat)
    requires Keyed(existing, bound) && i < |existing|
    requires done == Cleaned(existing[..i], ownId) && rest == existing[i + 1..]
    ensures forall k :: 0 <= k < |done| ==> done[k].node != existing[i].node
    ensures forall k :: 0 <= k < |rest| ==> rest[k].node != existing[i].node
  {
    CleanedMembers(existing[..i], ownId);
    forall k | 0 <= k < |done| ensures done[k].node != existing[i].node {
      assert done[k] in existing[..i];
      var m :| 0 <= m < i && existing[m] == done[k];
    }
    forall k | 0 <= k < |rest| ensures rest[k].node != existing[i].node {
      assert rest[k] == existing[i + 1 + k];
    }
  }

  /** A round of the clean-up loop that keeps the element it visits. */
  lemma KeepStep(existing: seq<Element>, i: nat, ownId: string)
    requires i < |existing| && SurvivesCleanup(existing[i], ownId)
    ensures Cleaned(existing[..i + 1], ownId) + existing[i + 1..] == Cleaned(existing[..i], ownId) + existing[i..]
  {
    var container := existing[i];
    assert existing[..i + 1] == existing[..i] + [container];
    CleanedAppend(existing[..i], [container], ownId);
    CleanedSingle(container, ownId);
    assert existing[i..] == [container] + existing[i + 1..];
  }

  /** A round of the clean-up loop that removes the foreign bar it visits. */
  lemma DropStep(existing: seq<Element>, i: nat, ownId: string, bound: nat)
    requires Keyed(existing, bound) && i < |existing| && !SurvivesCleanup(existing[i], ownId)
    ensures Cleaned(existing[..i + 1], ownId) + existing[i + 1..]
            == Detached(Cleaned(existing[..i], ownId) + existing[i..], existing[i].node)
  {
    var container := existing[i];
    var done := Cleaned(existing[..i], ownId);
    var rest := existing[i + 1..];
    assert existing[..i + 1] == existing[..i] + [container];
    CleanedAppend(existing[..i], [container], ownId);
    CleanedSingle(container, ownId);
    assert existing[i..] == [container] + rest;
    Apart(done, rest, existing, i, ownId, bound);
    DetachedMiddle(done, container, rest);
  }

  /** The document holds exactly one bar, and it sits immediately after the element `target`. */
  predicate SoleBarAfter(ns: seq<Element>, target: nat)
  {
    && IndexOf(ns, target).Some?
    && IndexOf(ns, target).value + 1 < |ns|
    && forall k :: 0 <= k < |ns| ==> (Marked(ns[k]) <==> k == IndexOf(ns, target).value + 1)
  }

  /**
   * After clean-up and injection at a target in the document, the document
   * holds exactly one bar, the new one, immediately after the target: every
   * foreign bar and the previous own bar are gone.
   */
  lemma OneBarAfterTarget(ns: seq<Element>, id: string, own: Option<nat>, target: nat, key: nat, prompts: seq<Prompt>)
    requires OwnTracked(ns, id, own)
    requires IndexOf(Unmounted(Cleaned(ns, id), own), target).Some?
    ensures var r := InsertAfter(Unmounted(Cleaned(ns, id), own), target, Bar(key, id, prompts));
      && SoleBarAfter(r, target)
      && r[IndexOf(r, target).value + 1] == Bar(key, id, prompts)
  {
    var before := Unmounted(Cleaned(ns, id), own);
    var bar := Bar(key, id, prompts);
    var r := InsertAfter(before, target, bar);
    var i := IndexOf(before, target).value;
    InsertAfterPositions(before, target, bar);
    NoBarLeft(ns, id, own);
    forall k | 0 <= k < |r| && k != i + 1 ensures !Marked(r[k]) {
      if k <= i { assert r[k] == before[k]; } else { assert r[k] == before[k - 1]; }
    }
    assert IndexOf(r, target) == Some(i) by {
      assert r[i].node == target;
      assert forall j :: 0 <= j < i ==> r[j].node != target;
    }
  }

  /** After the clean-up and the removal of the previous own bar, no bar is left in the document. */
  lemma NoBarLeft(ns: seq<Element>, id: string, own: Option<nat>)
    requires OwnTracked(ns, id, own)
    ensures var before := Unmounted(Cleaned(ns, id), own);
      forall k :: 0 <= k < |before| ==> !Marked(before[k])
  {
    var before := Unmounted(Cleaned(ns, id), own);
    CleanedMembers(ns, id);
    if own.Some? {
      DetachedMembers(Cleaned(ns, id), own.value);
    }
    forall k | 0 <= k < |before| ensures !Marked(before[k]) {
      var e := before[k];
      assert e in ns && SurvivesCleanup(e, id);
      var m :| 0 <= m < |ns| && ns[m] == e;
      assert e.id == id ==> own == Some(e.node);
    }
  }

  /** The page: its document and the content script's module state. */
  class Page {
    var nodes: seq<Element>
    var observedComposer: Option<nat>
    var quickPromptsContainer: Option<nat>
    /** This script instance's bar id, `"chatgpt-quick-prompts-container-" + Date.now()`. */
    const containerId: string
    /** The next fresh element identity. */
    var nextNode: nat

    ghost predicate Valid()
      reads this
    {
      && Keyed(nodes, nextNode)
      && (quickPromptsContainer.Some? ==> quickPromptsContainer.value < nextNode)
      && OwnTracked(nodes, containerId, quickPromptsContainer)
    }

    /** A page whose document no element of this instance is in yet. */
    constructor (doc: seq<Element>, containerId: string, nextNode: nat)
      requires Keyed(doc, nextNode)
      requires forall i :: 0 <= i < |doc| ==> doc[i].id != containerId
      ensures Valid()
      ensures nodes == doc && this.containerId == containerId && this.nextNode == nextNode
      ensures observedComposer == None && quickPromptsContainer == None
    {
      nodes := doc;
      this.containerId := containerId;
      this.nextNode := nextNode;
      observedComposer := None;
      quickPromptsContainer := None;
    }

    /** The own bar id is carried by one element at most. */
    lemma OwnBarUnique()
      requires Valid()
      ensures AtMostOneWithId(nodes, containerId)
    {
    }

    /** cleanupExistingContainers: removes, one by one, every bar carrying another instance's id. */
    method CleanupExistingContainers()
      requires Valid()
      modifies this`nodes
      ensures Valid()
      ensures nodes == Cleaned(old(nodes), containerId)
    {
      var existing := nodes;
      for i := 0 to |existing|
        invariant nodes == Cleaned(existing[..i], containerId) + existing[i..]
      {
        var container := existing[i];
        if Marked(container) && container.id != containerId {
          DropStep(existing, i, containerId, nextNode);
          nodes := Detached(nodes, container.node);
        } else {
          KeepStep(existing, i, containerId);
        }
      }
      assert existing[..|existing|] == existing;
      assert nodes == Cleaned(existing, containerId);
      CleanedKeyed(existing, nextNode, containerId);
      CleanedOwnTracked(existing, containerId, quickPromptsContainer);
    }

    /** The `forEach` that appends one button per prompt to the new bar. */
    static method BuildButtons(prompts: seq<Prompt>) returns (buttons: seq<Button>)
      ensures |buttons| == |prompts|
      ensures forall i :: 0 <= i < |prompts| ==> buttons[i] == CreatePromptButton(prompts[i])
    {
      buttons := [];
      for i := 0 to |prompts|
        invariant |buttons| == i
        invariant forall k :: 0 <= k < i ==> buttons[k] == CreatePromptButton(prompts[k])
      {
        buttons := buttons + [CreatePromptButton(prompts[i])];
      }
    }

    /**
     * injectPromptButtons with the list getPrompts answered. An empty list
     * changes nothing. Otherwise the previous own bar is removed if it is in
     * the document, a new bar with one button per prompt becomes the own bar,
     * and it is placed right after the target when the target has a parent.
     */
    method InjectPromptButtons(target: nat, prompts: seq<Prompt>)
      requires Valid()
      modifies this`nodes, this`quickPromptsContainer, this`nextNode
      ensures Valid()
      ensures |prompts| == 0 ==>
        nodes == old(nodes) && quickPromptsContainer == old(quickPromptsContainer) && nextNode == old(nextNode)
      ensures |prompts| > 0 ==>
        && quickPromptsContainer == Some(old(nextNode)) && nextNode == old(nextNode) + 1
        && nodes == InsertAfter(Unmounted(old(nodes), old(quickPromptsContainer)), target,
                                Bar(old(nextNode), containerId, prompts))
    {
      if |prompts| == 0 {
        return;
      }
      UnmountedFree(nodes, nextNode, containerId, quickPromptsContainer);
      if quickPromptsContainer.Some? && IndexOf(nodes, quickPromptsContainer.value).Some? {
        nodes := Detached(nodes, quickPromptsContainer.value);
        quickPromptsContainer := None;
      }
      assert nodes == Unmounted(old(nodes), old(quickPromptsContainer));
      var buttons := BuildButtons(prompts);
      var bar := Element(nextNode, {MarkerClass}, containerId, buttons);
      assert bar == Bar(nextNode, containerId, prompts);
      InsertFreshKeyed(nodes, target, bar, nextNode);
      quickPromptsContainer := Some(nextNode);
      nodes := InsertAfter(nodes, target, bar);
      nextNode := nextNode + 1;
    }

    /**
     * The mutation-observer callback, given what `#composer-background`
     * resolves to now and the list getPrompts answers. Nothing happens when
     * there is no composer or it is the one already observed; otherwise the
     * composer is recorded, the stray bars are cleaned up, and the bar is
     * injected after it.
     */
    method OnMutation(composer: Option<nat>, prompts: seq<Prompt>)
      requires Valid()
      modifies this`nodes, this`observedComposer, this`quickPromptsContainer, this`nextNode
      ensures Valid()
      ensures composer.None? || composer == old(observedComposer) ==>
        && nodes == old(nodes) && observedComposer == old(observedComposer)
        && quickPromptsContainer == old(quickPromptsContainer) && nextNode == old(nextNode)
      ensures composer.Some? && composer != old(observedComposer) ==>
        && observedComposer == composer
        && (|prompts| == 0 ==> nodes == Cleaned(old(nodes), containerId) && quickPromptsContainer == old(quickPromptsContainer))
        && (|prompts| > 0 ==>
             && quickPromptsContainer == Some(old(nextNode))
             && nodes == InsertAfter(Unmounted(Cleaned(old(nodes), containerId), old(quickPromptsContainer)),
                                     composer.value, Bar(old(nextNode), containerId, prompts)))
      ensures composer.Some? && composer != old(observedComposer) && |prompts| > 0 &&
              IndexOf(Unmounted(Cleaned(old(nodes), containerId), old(quickPromptsContainer)), composer.value).Some? ==>
        SoleBarAfter(nodes, composer.value)
    {
      if composer.None? || composer == observedComposer {
        return;
      }
      observedComposer := composer;
      CleanupExistingContainers();
      if |prompts| > 0 && IndexOf(Unmounted(nodes, quickPromptsContainer), composer.value).Some? {
        OneBarAfterTarget(old(nodes), containerId, quickPromptsContainer, composer.value, nextNode, prompts);
      }
      InjectPromptButtons(composer.value, prompts);
    }
  }
}
