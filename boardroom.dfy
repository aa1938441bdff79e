/**
 * The research repository view: the tag cloud, the search and tag filter
 * over the research items, and selecting or deselecting a tag.
 */
module Boardroom {
  import opened Wrappers
  import opened AgentTypes
  import Strings
  import Lists

  /** `items.flatMap(item => item.tags)`. */
  function FlatTags(items: seq<ResearchItem>): seq<string>
    decreases |items|
  {
    if items == [] then [] else items[0].tags + FlatTags(items[1..])
  }

  lemma {:induction false} FlatTagsMembers(items: seq<ResearchItem>)
    ensures forall t :: t in FlatTags(items) <==> exists i :: 0 <= i < |items| && t in items[i].tags
    decreases |items|
  {
    if items != [] {
      FlatTagsMembers(items[1..]);
      forall t | t in FlatTags(items)
        ensures exists i :: 0 <= i < |items| && t in items[i].tags
      {
        if t !in items[0].tags {
          assert t in FlatTags(items[1..]);
          var i :| 0 <= i < |items[1..]| && t in items[1..][i].tags;
          assert items[i + 1] == items[1..][i];
        }
      }
      forall t, i | 0 <= i < |items| && t in items[i].tags
        ensures t in FlatTags(items)
      {
        if i > 0 {
          assert items[1..][i - 1] == items[i];
        }
      }
    }
  }

  /** `Array.from(new Set(items.flatMap(item => item.tags)))`. */
  function AllTags(items: seq<ResearchItem>): seq<string>
  {
    Lists.Dedupe(FlatTags(items))
  }

  /** Every tag of any item appears exactly once, in the order of its first use. */
  lemma AllTagsSpec(items: seq<ResearchItem>)
    ensures Lists.NoDuplicates(AllTags(items))
    ensures forall t :: t in AllTags(items) <==> exists i :: 0 <= i < |items| && t in items[i].tags
    ensures Lists.InFirstOccurrenceOrder(AllTags(items), FlatTags(items))
  {
    FlatTagsMembers(items);
    Lists.DedupeFirstOccurrenceOrder(FlatTags(items));
  }

  /** The lower-cased title or summary contains the lower-cased query; a missing summary never matches. */
  predicate MatchesSearch(item: ResearchItem, query: string)
  {
    var q := Strings.AsciiLower(query);
    Strings.Contains(Strings.AsciiLower(item.title), q)
    || (item.summary.Some? && Strings.Contains(Strings.AsciiLower(item.summary.value), q))
  }

  /** No tag selected, or the item carries at least one selected tag. */
  predicate MatchesTags(item: ResearchItem, selected: seq<string>)
  {
    |selected| == 0 || exists k :: 0 <= k < |selected| && selected[k] in item.tags
  }

  /** `filteredItems`. */
  function FilteredItems(items: seq<ResearchItem>, query: string, selected: seq<string>): seq<ResearchItem>
  {
    Lists.Filter(items, (item: ResearchItem) => MatchesSearch(item, query) && MatchesTags(item, selected))
  }

  /**
   * The shown items are those passing both tests, in their original order;
   * an empty query and an empty selection let every item through.
   */
  lemma FilteredItemsSpec(items: seq<ResearchItem>, query: string, selected: seq<string>)
    ensures forall item :: item in FilteredItems(items, query, selected) <==>
      item in items && MatchesSearch(item, query) && MatchesTags(item, selected)
    ensures Lists.IsSubsequence(FilteredItems(items, query, selected), items)
    ensures FilteredItems(items, "", []) == items
  {
    var p := (item: ResearchItem) => MatchesSearch(item, query) && MatchesTags(item, selected);
    Lists.FilterIsSubsequence(items, p);
    Lists.FilterMembers(items, p);
    var all := (item: ResearchItem) => MatchesSearch(item, "") && MatchesTags(item, []);
    forall i | 0 <= i < |items| ensures all(items[i]) {
      assert Strings.AsciiLower("") == "";
      assert "" <= Strings.AsciiLower(items[i].title);
    }
    Lists.FilterKeepsAll(items, all);
  }

  /** The tag button: a selected tag is removed, any other is appended. */
  function ToggleTag(selected: seq<string>, tag: string): seq<string>
  {
    if tag in selected then Lists.Filter(selected, (t: string) => t != tag) else selected + [tag]
  }

  /**
   * Each toggle flips whether the tag is selected and leaves the other tags
   * as they were; on a selection without duplicates, toggling a new tag
   * twice gives the selection back.
   */
  lemma ToggleTagSpec(selected: seq<string>, tag: string)
    ensures tag in ToggleTag(selected, tag) <==> tag !in selected
    ensures forall t :: t != tag ==> (t in ToggleTag(selected, tag) <==> t in selected)
    ensures Lists.NoDuplicates(selected) ==> Lists.NoDuplicates(ToggleTag(selected, tag))
    ensures tag !in selected ==> ToggleTag(ToggleTag(selected, tag), tag) == selected
  {
    var p := (t: string) => t != tag;
    Lists.FilterMembers(selected, p);
    if tag in selected {
      Lists.FilterIsSubsequence(selected, p);
      Lists.SubsequenceNoDuplicates(Lists.Filter(selected, p), selected);
    } else {
      var once := selected + [tag];
      assert once[|selected|] == tag;
      Lists.FilterSplice(once, p, |selected|);
      assert once[..|selected|] == selected && once[|selected| + 1..] == [];
    }
  }
}
