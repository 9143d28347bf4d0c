/**
 * The root view (`InteractiveSIPOC`): the search text, the list of active category labels,
 * the label toggle, and the single filter string it hands to every panel.
 */
module InteractiveSipoc {

  import opened Strings
  import opened Sequences
  import opened SipocData
  import opened SipocSection

  /** `activeFilters.filter(f => f !== category)`: every occurrence of `category` dropped, the rest in order. */
  function Without(active: seq<string>, category: string): (r: seq<string>)
    ensures category !in r
    ensures IsSubsequence(r, active)
    ensures forall x :: x in r <==> x in active && x != category
  {
    Filter(active, x => x != category)
  }

  /**
   * A click on a category button: the category is removed (every occurrence) when it is
   * active, and appended at the end otherwise.
   */
  function Toggle(active: seq<string>, category: string): (r: seq<string>)
    ensures forall x :: x in r <==> if x == category then category !in active else x in active
    ensures category !in active ==> r == active + [category]
    ensures category in active ==> IsSubsequence(r, active) && |r| < |active|
  {
    if category in active then Without(active, category) else active + [category]
  }

  /** Toggling a category that was not active, and then toggling it again, restores the exact list. */
  lemma ToggleTwiceRestores(active: seq<string>, category: string)
    requires category !in active
    ensures Toggle(Toggle(active, category), category) == active
  {
    var keep := x => x != category;
    FilterAppend(active, [category], keep);
    FilterKeepsAll(active, keep);
    assert Filter([category], keep) == [];
  }

  /** Toggling any category twice leaves the same categories active, though the order may change. */
  lemma ToggleTwiceSameLabels(active: seq<string>, category: string)
    ensures forall x :: x in Toggle(Toggle(active, category), category) <==> x in active
  {
  }

  /** Toggling an active category off and on again moves it to the end of the list. */
  lemma ToggleTwiceMovesToEnd(active: seq<string>, category: string)
    requires category in active
    ensures Toggle(Toggle(active, category), category) == Without(active, category) + [category]
  {
  }

  /** A toggle keeps the active list free of duplicates. */
  lemma ToggleKeepsNoDuplicates(active: seq<string>, category: string)
    requires NoDuplicates(active)
    ensures NoDuplicates(Toggle(active, category))
  {
    if category in active {
      FilterNoDuplicates(active, x => x != category);
    } else {
      var r := active + [category];
      forall i, j | 0 <= i < j < |r| ensures r[i] != r[j] {
        if j == |active| {
          assert r[i] == active[i];
        }
      }
    }
  }

  /** The active list after the button clicks `categories`, in order, starting from `active`. */
  function ToggleAll(active: seq<string>, categories: seq<string>): (r: seq<string>)
    ensures forall x :: x in r ==> x in active || x in categories
    decreases |categories|
  {
    if categories == [] then active else ToggleAll(Toggle(active, categories[0]), categories[1..])
  }

  /** From the initial empty list, no sequence of clicks ever makes a category active twice. */
  lemma {:induction false} ToggleAllKeepsNoDuplicates(active: seq<string>, categories: seq<string>)
    requires NoDuplicates(active)
    ensures NoDuplicates(ToggleAll(active, categories))
    decreases |categories|
  {
    if categories != [] {
      ToggleKeepsNoDuplicates(active, categories[0]);
      ToggleAllKeepsNoDuplicates(Toggle(active, categories[0]), categories[1..]);
    }
  }

  /** The filter string handed to every panel: `''` when nothing is active, else the categories joined with `'|'`. */
  function FilterString(active: seq<string>): (r: string)
    ensures r == "" <==> active == [] || active == [""]
    ensures |active| == 1 ==> r == active[0]
    ensures |active| >= 2 ==> '|' in r
  {
    if |active| > 0 then Join(active, '|') else ""
  }

  /**
   * The filter string carries the active categories themselves, in order: when none of them
   * contains `'|'`, cutting the string at each `'|'` gives back the active list.
   */
  lemma FilterStringSplits(active: seq<string>)
    requires active != []
    requires forall k :: 0 <= k < |active| ==> '|' !in active[k]
    ensures Split(FilterString(active), '|') == active
  {
    SplitJoin(active, '|');
  }

  /** "License" and "CAD" active in that order are handed to the panels as "License|CAD". */
  lemma LicenseThenCadString()
    ensures FilterString(["License", "CAD"]) == "License|CAD"
  {
  }

  /** With only the predefined categories, the filter string is empty exactly when no category is active. */
  lemma PredefinedFilterStringEmpty(active: seq<string>)
    requires forall x :: x in active ==> x in PredefinedFilters
    ensures FilterString(active) == "" <==> active == []
  {
    assert "" !in PredefinedFilters;
  }

  /** What a panel over `items` lists for the root view's search text and active categories. */
  function VisibleItems(items: seq<string>, searchTerm: string, active: seq<string>): (r: seq<string>)
    ensures IsSubsequence(r, items)
    ensures forall item :: item in r <==> item in items && Matches(item, searchTerm, FilterString(active))
    ensures active == [] ==> r == FilterItems(items, searchTerm, "")
  {
    FilterItems(items, searchTerm, FilterString(active))
  }

  /** With one active category, a panel lists exactly its items that mention the search text and that category. */
  lemma OneLabelVisible(items: seq<string>, searchTerm: string, category: string)
    ensures forall item :: item in VisibleItems(items, searchTerm, [category]) <==>
              item in items && Mentions(item, searchTerm) && Mentions(item, category)
  {
    forall item | item in items {
      MentionsEmpty(item);
    }
  }

  /**
   * With two or more active categories the filter string contains `'|'`, and `includes` tests it
   * literally: only an item whose own text contains `'|'` can still be listed.
   */
  lemma MultipleLabelsNeedBar(items: seq<string>, searchTerm: string, active: seq<string>, item: string)
    requires |active| >= 2
    requires item in VisibleItems(items, searchTerm, active)
    ensures '|' in item
  {
    var filter := FilterString(active);
    LowerKeepsBar(filter);
    ContainsChar(Lower(item), Lower(filter), '|');
    LowerKeepsBar(item);
  }

  /** Hence with two or more active categories every panel of the diagram lists nothing. */
  lemma MultipleLabelsHideEverySection(k: nat, searchTerm: string, active: seq<string>)
    requires k < |Sections|
    requires |active| >= 2
    ensures VisibleItems(Sections[k].items, searchTerm, active) == []
  {
    var r := VisibleItems(Sections[k].items, searchTerm, active);
    if r != [] {
      MultipleLabelsNeedBar(Sections[k].items, searchTerm, active, r[0]);
      assert IsStaticItem(r[0]);
      StaticItemsHaveNoBar(r[0]);
      assert false;
    }
  }

  /**
   * The reading a user would expect of several categories: an item passes the categories when no
   * category is active or when it contains at least one of them.
   */
  predicate MatchesAnyLabel(item: string, searchTerm: string, active: seq<string>)
  {
    Mentions(item, searchTerm) && (active == [] || exists category :: category in active && Mentions(item, category))
  }

  /** With at most one active category, the joined-string test is that expected reading. */
  lemma AtMostOneLabelIsAnyLabel(item: string, searchTerm: string, active: seq<string>)
    requires |active| <= 1
    ensures Matches(item, searchTerm, FilterString(active)) <==> MatchesAnyLabel(item, searchTerm, active)
  {
    if |active| == 1 {
      assert active[0] in active;
      if active[0] == "" {
        MentionsEmpty(item);
      }
    }
  }

  /** "TCe license for PLMXML export" mentions "License", one of the labels "License" and "CAD". */
  lemma LicenseItemMatchesAnyLabel()
    ensures MatchesAnyLabel(WhatItems[0], "", ["License", "CAD"])
  {
    var active := ["License", "CAD"];
    MentionsEmpty(WhatItems[0]);
    LicenseInWhat0();
    LowerLicense();
    assert Mentions(WhatItems[0], active[0]);
  }

  /** With "License" and "CAD" both active, the first WHAT item contains "license" yet is not listed. */
  lemma LicenseAndCadHideLicenseItem()
    ensures MatchesAnyLabel(WhatItems[0], "", ["License", "CAD"])
    ensures WhatItems[0] !in VisibleItems(WhatItems, "", ["License", "CAD"])
  {
    LicenseItemMatchesAnyLabel();
    MultipleLabelsHideEverySection(0, "", ["License", "CAD"]);
  }

  /** Lower-casing "Build" or "build" gives "build". */
  lemma LowerBuild()
    ensures Lower("Build") == "build" && Lower("build") == "build"
  {
    assert Lower("Build")[0] == 'b';
  }

  lemma BuildNotInWho0()
    ensures !Mentions(WhoItems[0], "Build")
  {
    LowerBuild();
    MissingLetterNoMention(WhoItems[0], "Build", 'b');
  }

  lemma BuildNotInWho1()
    ensures !Mentions(WhoItems[1], "Build")
  {
    LowerBuild();
    NoLetterBInWho1();
    MissingLetterNoMention(WhoItems[1], "Build", 'b');
  }

  lemma NoLetterBInWho1()
    ensures 'b' !in WhoItems[1] && 'B' !in WhoItems[1]
  {
  }

  lemma BuildInWho2()
    ensures Mentions(WhoItems[2], "Build")
  {
    LowerBuild();
    MentionInside(WhoItems[2], "Daily ", "build", " by 07:00 hrs", "Build");
  }

  /** With only "Build" active and an empty search box, the WHO panel lists only the daily build item. */
  lemma BuildLabelInWho()
    ensures forall item :: item in VisibleItems(WhoItems, "", ["Build"]) <==> item == WhoItems[2]
  {
    assert FilterString(["Build"]) == "Build";
    MentionsEmpty(WhoItems[2]);
    BuildNotInWho0();
    BuildNotInWho1();
    BuildInWho2();
  }

  /** The state of the root view: what is typed in the search box and which categories are active. */
  class RootView {
    var searchTerm: string
    var activeFilters: seq<string>

    /** The active list never holds a category twice. */
    ghost predicate Valid()
      reads this
    {
      NoDuplicates(activeFilters)
    }

    /** The view starts with an empty search box and no active category. */
    constructor ()
      ensures Valid()
      ensures searchTerm == "" && activeFilters == []
    {
      searchTerm := "";
      activeFilters := [];
    }

    /** Every keystroke in the search box replaces the search text. */
    method SetSearchTerm(value: string)
      requires Valid()
      modifies this
      ensures Valid()
      ensures searchTerm == value && activeFilters == old(activeFilters)
    {
      searchTerm := value;
    }

    /** `toggleFilter`: remove the category when it is active, append it otherwise. */
    method ToggleFilter(category: string)
      requires Valid()
      modifies this
      ensures Valid()
      ensures activeFilters == Toggle(old(activeFilters), category)
      ensures category in activeFilters <==> category !in old(activeFilters)
      ensures searchTerm == old(searchTerm)
    {
      ToggleKeepsNoDuplicates(activeFilters, category);
      activeFilters := Toggle(activeFilters, category);
    }

    /** The filter string passed to each panel. */
    function PassedFilter(): (r: string)
      reads this
      ensures r == FilterString(activeFilters)
      ensures r == "" <==> activeFilters == [] || activeFilters == [""]
    {
      FilterString(activeFilters)
    }

    /** What the `k`-th panel lists once it is expanded. */
    function PanelItems(k: nat): (r: seq<string>)
      reads this
      requires k < |Sections|
      ensures r == VisibleItems(Sections[k].items, searchTerm, activeFilters)
      ensures IsSubsequence(r, Sections[k].items)
      ensures forall item :: item in r <==> item in Sections[k].items && Matches(item, searchTerm, FilterString(activeFilters))
      ensures |activeFilters| >= 2 ==> r == []
    {
      if |activeFilters| >= 2 then
        MultipleLabelsHideEverySection(k, searchTerm, activeFilters);
        VisibleItems(Sections[k].items, searchTerm, activeFilters)
      else
        VisibleItems(Sections[k].items, searchTerm, activeFilters)
    }
  }
}
