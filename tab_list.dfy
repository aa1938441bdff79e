/**
 * Operations on a list of tabs shared by the reducer and the simulated data
 * source, with the facts about the active flag that both rely on.
 */
module TabList {
  import opened Wrappers
  import opened BrowserTypes
  import Lists

  predicate HasId(tabs: seq<Tab>, id: string)
  {
    exists i :: 0 <= i < |tabs| && tabs[i].id == id
  }

  predicate UniqueIds(tabs: seq<Tab>)
  {
    forall i, j :: 0 <= i < j < |tabs| ==> tabs[i].id != tabs[j].id
  }

  predicate AtMostOneActive(tabs: seq<Tab>)
  {
    forall i, j :: 0 <= i < |tabs| && 0 <= j < |tabs| && tabs[i].isActive && tabs[j].isActive ==> i == j
  }

  predicate SomeActive(tabs: seq<Tab>)
  {
    exists i :: 0 <= i < |tabs| && tabs[i].isActive
  }

  /** The single-active invariant: at most one active tab, and exactly one when there are tabs. */
  predicate SingleActive(tabs: seq<Tab>)
  {
    AtMostOneActive(tabs) && (tabs != [] ==> SomeActive(tabs))
  }

  /** `tabs.map(t => ({ ...t, isActive: false }))`. */
  function Deactivated(tabs: seq<Tab>): (r: seq<Tab>)
    ensures |r| == |tabs|
    ensures forall i :: 0 <= i < |r| ==> !r[i].isActive && r[i] == tabs[i].(isActive := false)
  {
    seq(|tabs|, i requires 0 <= i < |tabs| => tabs[i].(isActive := false))
  }

  /** `tabs.map(t => ({ ...t, isActive: t.id === id }))`. */
  function ActivatedOnly(tabs: seq<Tab>, id: string): (r: seq<Tab>)
    ensures |r| == |tabs|
    ensures forall i :: 0 <= i < |r| ==> (r[i].isActive <==> tabs[i].id == id)
    ensures forall i :: 0 <= i < |r| ==> r[i].(isActive := tabs[i].isActive) == tabs[i]
  {
    seq(|tabs|, i requires 0 <= i < |tabs| => tabs[i].(isActive := tabs[i].id == id))
  }

  /** `tabs.filter(t => t.id !== id)`. */
  function WithoutId(tabs: seq<Tab>, id: string): seq<Tab>
  {
    Lists.Filter(tabs, (t: Tab) => t.id != id)
  }

  /** The tabs kept are exactly those whose id differs. */
  lemma WithoutIdMembers(tabs: seq<Tab>, id: string)
    ensures forall t :: t in WithoutId(tabs, id) <==> t in tabs && t.id != id
  {
    Lists.FilterMembers(tabs, (t: Tab) => t.id != id);
  }

  function IndexOfId(tabs: seq<Tab>, id: string): Option<nat>
  {
    Lists.IndexWhere(tabs, (t: Tab) => t.id == id)
  }

  /** `tabs.find(t => t.id === id)`. */
  function FindId(tabs: seq<Tab>, id: string): Option<Tab>
  {
    Lists.Find(tabs, (t: Tab) => t.id == id)
  }

  function IndexOfActive(tabs: seq<Tab>): Option<nat>
  {
    Lists.IndexWhere(tabs, (t: Tab) => t.isActive)
  }

  /** `tabs.find(t => t.isActive)`: the derived active tab. */
  function FirstActive(tabs: seq<Tab>): Option<Tab>
  {
    Lists.Find(tabs, (t: Tab) => t.isActive)
  }

  /** `tabs.map(t => t.id === id ? { ...t, ...p } : t)`. */
  function MergeInto(tabs: seq<Tab>, id: string, p: TabPatch): seq<Tab>
  {
    Lists.MapWhere(tabs, (t: Tab) => t.id == id, (t: Tab) => Merge(t, p))
  }

  /** `find` by id succeeds exactly when some tab has the id, and returns the first such tab. */
  lemma FindIdSpec(tabs: seq<Tab>, id: string)
    ensures FindId(tabs, id).Some? <==> HasId(tabs, id)
    ensures FindId(tabs, id).Some? ==> FindId(tabs, id).value.id == id
    ensures IndexOfId(tabs, id).Some? <==> HasId(tabs, id)
    ensures IndexOfId(tabs, id).Some? ==> FindId(tabs, id) == Some(tabs[IndexOfId(tabs, id).value])
  {
  }

  /** The first active tab, when there is one, is the unique active tab under the invariant. */
  lemma FirstActiveSpec(tabs: seq<Tab>)
    ensures FirstActive(tabs).Some? <==> SomeActive(tabs)
    ensures FirstActive(tabs).Some? ==> FirstActive(tabs).value.isActive
    ensures AtMostOneActive(tabs) ==>
      forall i :: 0 <= i < |tabs| && tabs[i].isActive ==> FirstActive(tabs) == Some(tabs[i])
  {
  }

  /** Deactivating every tab and appending an active one leaves exactly that one active. */
  lemma AppendActive(tabs: seq<Tab>, t: Tab)
    requires t.isActive
    ensures SingleActive(Deactivated(tabs) + [t])
    ensures FirstActive(Deactivated(tabs) + [t]) == Some(t)
  {
    var r := Deactivated(tabs) + [t];
    assert r[|tabs|].isActive;
    FirstActiveSpec(r);
  }

  /** Activating by id: one active tab when the id is present once, none when it is absent. */
  lemma ActivatedOnlyCases(tabs: seq<Tab>, id: string)
    ensures UniqueIds(tabs) && HasId(tabs, id) ==> SingleActive(ActivatedOnly(tabs, id))
    ensures !HasId(tabs, id) ==> !SomeActive(ActivatedOnly(tabs, id))
    ensures UniqueIds(ActivatedOnly(tabs, id)) <==> UniqueIds(tabs)
  {
    var r := ActivatedOnly(tabs, id);
    assert forall i :: 0 <= i < |r| ==> r[i].id == tabs[i].id;
    if HasId(tabs, id) {
      var k :| 0 <= k < |tabs| && tabs[k].id == id;
      assert r[k].isActive;
    }
  }

  /** Removing tabs by id keeps the remaining ids distinct. */
  lemma {:induction false} WithoutIdUnique(tabs: seq<Tab>, id: string)
    requires UniqueIds(tabs)
    ensures UniqueIds(WithoutId(tabs, id))
    decreases |tabs|
  {
    if tabs != [] {
      var rest := tabs[1..];
      assert UniqueIds(rest) by {
        assert forall i :: 0 <= i < |rest| ==> rest[i] == tabs[i + 1];
      }
      WithoutIdUnique(rest, id);
      WithoutIdMembers(rest, id);
      var kept := WithoutId(rest, id);
      if tabs[0].id != id {
        assert WithoutId(tabs, id) == [tabs[0]] + kept;
        forall j | 0 <= j < |kept|
          ensures tabs[0].id != kept[j].id
        {
          assert kept[j] in rest;
          var m :| 0 <= m < |rest| && rest[m] == kept[j];
          assert tabs[m + 1] == kept[j];
        }
      } else {
        assert WithoutId(tabs, id) == kept;
      }
    }
  }

  /** Removing tabs by id never creates a second active tab. */
  lemma WithoutIdAtMostOne(tabs: seq<Tab>, id: string)
    requires UniqueIds(tabs) && AtMostOneActive(tabs)
    ensures AtMostOneActive(WithoutId(tabs, id))
  {
    var kept := WithoutId(tabs, id);
    WithoutIdUnique(tabs, id);
    WithoutIdMembers(tabs, id);
    forall i, j | 0 <= i < |kept| && 0 <= j < |kept| && kept[i].isActive && kept[j].isActive
      ensures i == j
    {
      assert kept[i] in tabs && kept[j] in tabs;
      var p :| 0 <= p < |tabs| && tabs[p] == kept[i];
      var q :| 0 <= q < |tabs| && tabs[q] == kept[j];
      assert p == q;
      assert kept[i] == kept[j];
    }
  }

  /**
   * Under the invariant, removing the tab with a given id leaves no active tab
   * when the removed tab was the active one, and keeps the invariant otherwise.
   */
  lemma WithoutIdActive(tabs: seq<Tab>, id: string)
    requires UniqueIds(tabs) && SingleActive(tabs)
    ensures UniqueIds(WithoutId(tabs, id))
    ensures FindId(tabs, id).Some? && FindId(tabs, id).value.isActive ==>
      !SomeActive(WithoutId(tabs, id))
    ensures !(FindId(tabs, id).Some? && FindId(tabs, id).value.isActive) ==>
      SingleActive(WithoutId(tabs, id))
  {
    var kept := WithoutId(tabs, id);
    WithoutIdUnique(tabs, id);
    WithoutIdMembers(tabs, id);
    WithoutIdAtMostOne(tabs, id);
    FindIdSpec(tabs, id);
    var found := FindId(tabs, id);
    if found.Some? && found.value.isActive {
      var q := IndexOfId(tabs, id).value;
      assert tabs[q] == found.value;
      forall i | 0 <= i < |kept|
        ensures !kept[i].isActive
      {
        assert kept[i] in tabs;
        var p :| 0 <= p < |tabs| && tabs[p] == kept[i];
        assert kept[i].id != id && tabs[q].id == id;
        assert p != q;
      }
    } else if kept != [] {
      var a :| 0 <= a < |tabs| && tabs[a].isActive;
      if found.Some? {
        var q := IndexOfId(tabs, id).value;
        assert q != a;
        assert tabs[q].id == id;
      }
      assert tabs[a].id != id;
      assert tabs[a] in kept;
    }
  }

  /** Stores into some tabs' fields by id: the update keeps list length, order and ids. */
  lemma MergeIntoSpec(tabs: seq<Tab>, id: string, p: TabPatch)
    ensures |MergeInto(tabs, id, p)| == |tabs|
    ensures forall i :: 0 <= i < |tabs| && tabs[i].id == id ==> MergeInto(tabs, id, p)[i] == Merge(tabs[i], p)
    ensures forall i :: 0 <= i < |tabs| && tabs[i].id != id ==> MergeInto(tabs, id, p)[i] == tabs[i]
    ensures !HasId(tabs, id) ==> MergeInto(tabs, id, p) == tabs
  {
    Lists.MapWhereAt(tabs, (t: Tab) => t.id == id, (t: Tab) => Merge(t, p));
  }

  /** A patch without `id` or `isActive` keeps distinct ids and the active flags. */
  lemma MergeIntoKeepsFlags(tabs: seq<Tab>, id: string, p: TabPatch)
    requires p.id.None? && p.isActive.None?
    ensures UniqueIds(MergeInto(tabs, id, p)) <==> UniqueIds(tabs)
    ensures SingleActive(MergeInto(tabs, id, p)) <==> SingleActive(tabs)
  {
    MergeIntoSpec(tabs, id, p);
    var r := MergeInto(tabs, id, p);
    assert forall i :: 0 <= i < |tabs| ==> r[i].id == tabs[i].id && r[i].isActive == tabs[i].isActive;
  }

  /** With distinct ids, filtering an id out is splicing out its one position. */
  lemma WithoutIdSplice(tabs: seq<Tab>, id: string, i: nat)
    requires UniqueIds(tabs) && i < |tabs| && tabs[i].id == id
    ensures WithoutId(tabs, id) == tabs[..i] + tabs[i + 1..]
  {
    Lists.FilterSplice(tabs, (t: Tab) => t.id != id, i);
  }
}
