/**
 * One SIPOC panel (`SIPOCSection`): which of its items are listed for the current search
 * text and filter string, the description behind its info icon, the hover tooltip rule,
 * and the panel's own view state.
 */
module SipocSection {

  import opened Optional
  import opened Strings
  import opened Sequences
  import opened SipocData

  /** `item.toLowerCase().includes(text.toLowerCase())`: the item mentions `text`, ignoring letter case. */
  predicate Mentions(item: string, text: string)
    ensures Mentions(item, text) <==> exists i :: OccursAt(Lower(item), Lower(text), i)
    ensures Mentions(item, text) ==> |text| <= |item|
  {
    ContainsIffOccurs(Lower(item), Lower(text));
    Contains(Lower(item), Lower(text))
  }

  /**
   * An item is listed when it mentions the search text and, unless the filter string is
   * empty, also mentions the filter string.
   */
  predicate Matches(item: string, searchTerm: string, filter: string)
    ensures Matches(item, searchTerm, filter) <==>
              (exists i :: OccursAt(Lower(item), Lower(searchTerm), i))
              && (filter == "" || exists j :: OccursAt(Lower(item), Lower(filter), j))
  {
    Mentions(item, searchTerm) && (filter == "" || Mentions(item, filter))
  }

  /** The items a panel lists: `items.filter(...)` with the test above. */
  function FilterItems(items: seq<string>, searchTerm: string, filter: string): (r: seq<string>)
    ensures IsSubsequence(r, items)
    ensures forall item :: item in r <==> item in items && Matches(item, searchTerm, filter)
  {
    Filter(items, item => Matches(item, searchTerm, filter))
  }

  /** The filter is decided item by item: listing a concatenation lists each part in turn. */
  lemma FilterItemsAppend(a: seq<string>, b: seq<string>, searchTerm: string, filter: string)
    ensures FilterItems(a + b, searchTerm, filter) == FilterItems(a, searchTerm, filter) + FilterItems(b, searchTerm, filter)
  {
    FilterAppend(a, b, item => Matches(item, searchTerm, filter));
  }

  /** Every item mentions the empty text. */
  lemma MentionsEmpty(item: string)
    ensures Mentions(item, "")
  {
    assert Lower("") <= Lower(item);
  }

  /** With no search text and no filter string every item is listed, in its original order. */
  lemma EmptySearchKeepsAll(items: seq<string>)
    ensures FilterItems(items, "", "") == items
  {
    forall item | item in items ensures Matches(item, "", "") {
      MentionsEmpty(item);
    }
    FilterKeepsAll(items, item => Matches(item, "", ""));
  }

  /**
   * Searching for any piece `p` of an item's text, typed in any letter case as `piece`,
   * lists that item when no filter is set.
   */
  lemma SubstringSearchKeepsItem(items: seq<string>, item: string, p: string, piece: string)
    requires item in items
    requires Contains(item, p) && Lower(p) == Lower(piece)
    ensures item in FilterItems(items, piece, "")
  {
    LowerContains(item, p);
  }

  /** An item written around `mention` mentions every text equal to `mention` up to letter case. */
  lemma MentionInside(item: string, before: string, mention: string, after: string, text: string)
    requires item == before + mention + after
    requires Lower(mention) == Lower(text)
    ensures Mentions(item, text)
  {
    LowerAppend(before + mention, after);
    LowerAppend(before, mention);
    ContainsMiddle(Lower(before), Lower(mention), Lower(after));
  }

  /** An item lacking, in both cases, a letter of the lower-cased text does not mention the text. */
  lemma MissingLetterNoMention(item: string, text: string, c: char)
    requires 'a' <= c <= 'z' && c in Lower(text)
    requires c !in item && (c as int - 32) as char !in item
    ensures !Mentions(item, text)
  {
    LowerLacksLetter(item, c);
    NotContainsMissingChar(Lower(item), Lower(text), c);
  }

  /** Lower-casing "License" or "license" gives "license". */
  lemma LowerLicense()
    ensures Lower("License") == "license" && Lower("license") == "license"
  {
    assert Lower("License")[0] == 'l';
  }

  lemma LicenseInWhat0()
    ensures Mentions(WhatItems[0], "license")
  {
    LowerLicense();
    WhatItem0Parts();
    MentionInside(WhatItems[0], "TCe ", "license", " for PLMXML export", "license");
  }

  lemma WhatItem0Parts()
    ensures WhatItems[0] == "TCe " + "license" + " for PLMXML export"
  {
  }

  lemma LicenseInWhat1()
    ensures Mentions(WhatItems[1], "license")
  {
    LowerLicense();
    MentionInside(WhatItems[1], "Vismockup ", "license", "", "license");
  }

  lemma LicenseNotInWhat2()
    ensures !Mentions(WhatItems[2], "license")
  {
    LowerLicense();
    MissingLetterNoMention(WhatItems[2], "license", 'l');
  }

  lemma LicenseNotInWhat3()
    ensures !Mentions(WhatItems[3], "license")
  {
    LowerLicense();
    MissingLetterNoMention(WhatItems[3], "license", 's');
  }

  lemma LicenseInWhat4()
    ensures Mentions(WhatItems[4], "license")
  {
    LowerLicense();
    MentionInside(WhatItems[4], "Link to TCe ", "License", " Data", "license");
  }

  /**
   * Searching "license" in the WHAT panel lists three items: the two that end in "license"
   * and "Link to TCe License Data", whose capital L is folded away.
   */
  lemma SearchLicenseInWhat()
    ensures forall item :: item in FilterItems(WhatItems, "license", "") <==> item in [WhatItems[0], WhatItems[1], WhatItems[4]]
  {
    LicenseInWhat0();
    LicenseInWhat1();
    LicenseNotInWhat2();
    LicenseNotInWhat3();
    LicenseInWhat4();
  }

  /** The description behind a panel's info icon, looked up by the panel title. */
  function InfoContent(title: string): (r: Option<string>)
    ensures r.Some? <==> title in SectionTitles
    ensures r.Some? ==> r.value != ""
  {
    match title
    case "WHAT" => Some("Prerequisites and licenses needed for Digital Buck Creation")
    case "WHO" => Some("Key personnel and timing requirements")
    case "KEY INPUTS" => Some("Required alignments and validations before process initiation")
    case "PROCESS" => Some("Core steps in Digital Buck Creation")
    case "KEY OUTPUTS" => Some("Deliverables and results")
    case "CRITERIA" => Some("Essential requirements and standards")
    case _ => None
  }

  /**
   * The test made beside each listed item: a tooltip only for the hovered item, and only when
   * the tooltip table has a non-empty text under exactly that item's text.
   */
  function Tooltip(hovered: Option<string>, item: string): (r: Option<string>)
    ensures r.Some? <==> hovered == Some(item) && item in Tooltips
    ensures r.Some? ==> r.value == Tooltips[item]
  {
    if hovered == Some(item) && item in Tooltips && Tooltips[item] != "" then Some(Tooltips[item]) else None
  }

  /** At most one item shows a tooltip at a time: the hovered one. */
  lemma AtMostOneTooltip(hovered: Option<string>, a: string, b: string)
    requires Tooltip(hovered, a).Some? && Tooltip(hovered, b).Some?
    ensures a == b && hovered == Some(a)
  {
  }

  /** The view state of one panel; title and items are the panel's fixed properties. */
  class SectionView {
    const title: string
    const items: seq<string>
    var isExpanded: bool
    var showInfo: bool
    var hoveredItem: Option<string>

    /** A panel starts collapsed, without its description, with nothing hovered. */
    constructor (title: string, items: seq<string>)
      ensures this.title == title && this.items == items
      ensures !isExpanded && !showInfo && hoveredItem == None
    {
      this.title := title;
      this.items := items;
      isExpanded := false;
      showInfo := false;
      hoveredItem := None;
    }

    /** A click on the header flips `isExpanded` and nothing else. */
    method ClickHeader()
      modifies this
      ensures isExpanded == !old(isExpanded)
      ensures showInfo == old(showInfo) && hoveredItem == old(hoveredItem)
    {
      isExpanded := !isExpanded;
    }

    /** A click on the info icon flips `showInfo`; the click does not reach the header. */
    method ClickInfo()
      modifies this
      ensures showInfo == !old(showInfo)
      ensures isExpanded == old(isExpanded) && hoveredItem == old(hoveredItem)
    {
      showInfo := !showInfo;
    }

    /** The pointer enters a listed item. */
    method MouseEnter(item: string)
      modifies this
      ensures hoveredItem == Some(item)
      ensures isExpanded == old(isExpanded) && showInfo == old(showInfo)
      ensures forall other, searchTerm, filter :: other != item ==> ShownTooltip(other, searchTerm, filter) == None
    {
      hoveredItem := Some(item);
    }

    /** The pointer leaves an item: nothing is hovered and no tooltip is shown. */
    method MouseLeave()
      modifies this
      ensures hoveredItem == None
      ensures isExpanded == old(isExpanded) && showInfo == old(showInfo)
      ensures forall item, searchTerm, filter :: ShownTooltip(item, searchTerm, filter) == None
    {
      hoveredItem := None;
    }

    /** The items the panel lists for the search text and filter string passed to it. */
    function ShownItems(searchTerm: string, filter: string): (r: seq<string>)
      reads this
      ensures !isExpanded ==> r == []
      ensures isExpanded ==> IsSubsequence(r, items)
      ensures forall item :: item in r <==> isExpanded && item in items && Matches(item, searchTerm, filter)
    {
      if isExpanded then FilterItems(items, searchTerm, filter) else []
    }

    /** The description alert under the header, shown while `showInfo` holds. */
    function ShownInfo(): (r: Option<Option<string>>)
      reads this
      ensures r.Some? <==> showInfo
      ensures r.Some? ==> (r.value.Some? <==> title in SectionTitles)
      ensures r.Some? ==> r.value == InfoContent(title)
    {
      if showInfo then Some(InfoContent(title)) else None
    }

    /**
     * The tooltip beside `item` for the search text and filter string passed to the panel:
     * the test of `Tooltip` is made only for an item of the rendered list.
     */
    function ShownTooltip(item: string, searchTerm: string, filter: string): (r: Option<string>)
      reads this
      ensures r.Some? <==> isExpanded && item in items && Matches(item, searchTerm, filter)
                           && hoveredItem == Some(item) && item in Tooltips
      ensures r.Some? ==> r.value == Tooltips[item]
    {
      if item in ShownItems(searchTerm, filter) then Tooltip(hoveredItem, item) else None
    }
  }
}
