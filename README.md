# Digital Buck Creation SIPOC — a Dafny model of the interactive diagram's logic

The component `InteractiveSIPOC` renders a fixed Supplier-Input-Process-Output-Customer
diagram for the automotive "Digital Buck Creation" workflow: six panels (WHAT, WHO,
KEY INPUTS, PROCESS, KEY OUTPUTS, CRITERIA), each with a header that expands or
collapses it, an info icon that shows a fixed description, a list of line items with
hover tooltips, a free-text search box shared by all panels and five category buttons
(License, CAD, PLMXML, Validation, Build) that narrow the lists.

This project models what that component decides, and proves what it does:

- `Strings` — the JavaScript string built-ins the component uses: `toLowerCase`
  (ASCII case folding), `includes` (with a proof that it means "occurs at some
  position") and `Array.prototype.join`.
- `Sequences` — `Array.prototype.filter` over a sequence, with the facts that the
  result keeps the input's order, holds exactly the elements that pass, and is decided
  element by element.
- `SipocData` — the fixed tables: the six sections with their items and colour tags,
  the tooltip texts keyed by item text, the category labels; and facts about them
  (no item contains `'|'`; which tooltip keys are the text of some item).
- `SipocSection` — one panel (`SIPOCSection`): the item filter, the info description
  lookup, the hover tooltip rule, and a `SectionView` class holding the panel's
  `isExpanded`, `showInfo` and `hoveredItem` state with one method per event handler.
- `InteractiveSipoc` — the root view: the label toggle, the filter string handed to
  every panel, a `RootView` class holding `searchTerm` and `activeFilters`, and the
  consequences of passing several labels as one `'|'`-joined string.

Strings are `seq<char>`; "no value" (`null`, `undefined`) is `Option.None`.

## Behaviour of the code worth knowing

Each point below is what the code does, stated by the proved members named in it.

- Several active labels. The labels are joined with `'|'` (line 238) and the panel
  tests that whole string with `includes` (line 29), a literal substring test rather
  than a regular-expression alternation. An item can then pass only if its own text
  contains `'|'` (`InteractiveSipoc.MultipleLabelsNeedBar`). No item of the table does
  (`SipocData.StaticItemsHaveNoBar`), so with two or more labels active every panel
  lists nothing (`InteractiveSipoc.MultipleLabelsHideEverySection`). The "an item needs
  to match only one label" reading holds for at most one label
  (`InteractiveSipoc.AtMostOneLabelIsAnyLabel`) and fails for "License" plus "CAD"
  (`InteractiveSipoc.LicenseAndCadHideLicenseItem`).
- Searching "license" in the WHAT panel also lists "Link to TCe License Data", whose
  capital L is folded before the comparison (`SipocSection.SearchLicenseInWhat`).
- The active labels are an ordered list, not a set: toggling an active label off and
  on again moves it to the end (`InteractiveSipoc.ToggleTwiceMovesToEnd`), while the same
  labels stay active (`InteractiveSipoc.ToggleTwiceSameLabels`). The order shows in the
  joined filter string (`InteractiveSipoc.FilterStringSplits`).
- Two tooltip keys, "150% virtual representation" and ".PLMXML extract", are only parts
  of longer items. The lookup is by exact item text, so these two tooltips never appear
  (`SipocData.TooltipKeysThatAreItems`).
- A tooltip is drawn only beside a listed item (lines 71-82,
  `SipocSection.SectionView.ShownTooltip`), and only `onMouseLeave` clears `hoveredItem`
  (`SipocSection.SectionView.MouseLeave`). Whether the browser delivers a mouse-leave
  event when typing hides the item under the pointer is event dispatch, outside the
  model; if none arrives, the item stays hovered and its tooltip is drawn again once it
  is listed again.

## Model

| member | source | states |
|---|---|---|
| `Strings.LowerChar` | digital-buck-sipoc/components/InteractiveSIPOC.js:28 | one character of `toLowerCase`: the result is never an upper-case ASCII letter; it is the character itself or its lower-case partner |
| `Strings.Lower` | digital-buck-sipoc/components/InteractiveSIPOC.js:28-29 | `toLowerCase` keeps the length and folds each character on its own |
| `Strings.ContainsIffOccurs` | digital-buck-sipoc/components/InteractiveSIPOC.js:28-29 | `s.includes(t)` holds exactly when `t` occurs in `s` at some position (both directions) |
| `Strings.Contains` | digital-buck-sipoc/components/InteractiveSIPOC.js:28-29 | `s.includes(t)`: a prefix is always contained, and a contained string is never longer than the text |
| `Strings.LowerContains` | digital-buck-sipoc/components/InteractiveSIPOC.js:28 | a substring of a text is still a substring after both are lower-cased |
| `Strings.LowerKeepsBar` | digital-buck-sipoc/components/InteractiveSIPOC.js:29 | `'|'` is in a text exactly when it is in the lower-cased text |
| `Strings.Join` | digital-buck-sipoc/components/InteractiveSIPOC.js:238 | `join('|')` starts with the first part, and holds the separator whenever there are two or more parts |
| `Strings.Split` | digital-buck-sipoc/components/InteractiveSIPOC.js:238 | the reference inverse of `join`: cutting a string at every separator gives at least one piece, and no piece holds the separator |
| `Strings.SplitJoin` | digital-buck-sipoc/components/InteractiveSIPOC.js:238 | for a non-empty list of parts free of the separator, splitting the joined string gives back exactly those parts, in order |
| `Sequences.Filter` | digital-buck-sipoc/components/InteractiveSIPOC.js:27-31 | `Array.filter` returns a subsequence of its input (order kept), holding exactly the elements that pass, and is shorter exactly when some element fails |
| `Sequences.FilterAppend` | digital-buck-sipoc/components/InteractiveSIPOC.js:27 | filtering a concatenation is the concatenation of the filtered parts, so each element is judged on its own |
| `Sequences.FilterKeepsAll` | digital-buck-sipoc/components/InteractiveSIPOC.js:27 | when every element passes, the filter returns its input unchanged |
| `Sequences.FilterNoDuplicates` | digital-buck-sipoc/components/InteractiveSIPOC.js:178 | filtering a list without repeats gives a list without repeats |
| `SipocSection.Mentions` | digital-buck-sipoc/components/InteractiveSIPOC.js:28-29 | `item.toLowerCase().includes(text.toLowerCase())` holds exactly when the lower-cased text occurs at some position of the lower-cased item, so the text is never longer than the item |
| `SipocSection.Matches` | digital-buck-sipoc/components/InteractiveSIPOC.js:27-31 | the filter callback: the lower-cased search text occurs in the lower-cased item, and the filter string is empty or its lower-cased form occurs there too |
| `SipocSection.FilterItems` | digital-buck-sipoc/components/InteractiveSIPOC.js:27-31 | the listed items are a subsequence of the panel's items, in their order, and an item is listed iff it mentions the search text and (the filter string is empty or it mentions the filter string), ignoring letter case |
| `SipocSection.FilterItemsAppend` | digital-buck-sipoc/components/InteractiveSIPOC.js:27-31 | the item filter is decided item by item |
| `SipocSection.EmptySearchKeepsAll` | digital-buck-sipoc/components/InteractiveSIPOC.js:28-29 | with an empty search box and no filter string the panel lists exactly its items, in order |
| `SipocSection.SubstringSearchKeepsItem` | digital-buck-sipoc/components/InteractiveSIPOC.js:28-29 | searching for a text that equals, up to letter case, some piece of an item's text keeps that item when no filter is set |
| `SipocSection.SearchLicenseInWhat` | digital-buck-sipoc/components/InteractiveSIPOC.js:27-31 | searching "license" in WHAT lists exactly "TCe license for PLMXML export", "Vismockup license" and "Link to TCe License Data" |
| `SipocSection.InfoContent` | digital-buck-sipoc/components/InteractiveSIPOC.js:33-43 | a description exists exactly for the six section titles, and each is non-empty; any other title gives none |
| `SipocSection.Tooltip` | digital-buck-sipoc/components/InteractiveSIPOC.js:82 | the test made beside a listed item: a tooltip iff that item is the hovered one and its exact text is a tooltip key; it shows that key's text |
| `SipocSection.AtMostOneTooltip` | digital-buck-sipoc/components/InteractiveSIPOC.js:78-82 | two items showing tooltips at once are the same item, the hovered one |
| `SipocSection.SectionView.constructor` | digital-buck-sipoc/components/InteractiveSIPOC.js:21-24 | a panel starts collapsed, without its description, with nothing hovered |
| `SipocSection.SectionView.ClickHeader` | digital-buck-sipoc/components/InteractiveSIPOC.js:47-50 | a header click flips `isExpanded` and leaves `showInfo` and `hoveredItem` alone |
| `SipocSection.SectionView.ClickInfo` | digital-buck-sipoc/components/InteractiveSIPOC.js:55-61 | an info click flips `showInfo` and does not change `isExpanded` (propagation is stopped) |
| `SipocSection.SectionView.MouseEnter` | digital-buck-sipoc/components/InteractiveSIPOC.js:78 | entering an item makes it the hovered item; no other item can then show a tooltip, whatever the search text and filter string |
| `SipocSection.SectionView.MouseLeave` | digital-buck-sipoc/components/InteractiveSIPOC.js:79 | leaving an item clears `hoveredItem`, after which no item shows a tooltip, whatever the search text and filter string |
| `SipocSection.SectionView.ShownItems` | digital-buck-sipoc/components/InteractiveSIPOC.js:71-74 | a collapsed panel lists nothing; an expanded one lists, in order, exactly its items that pass the filter |
| `SipocSection.SectionView.ShownInfo` | digital-buck-sipoc/components/InteractiveSIPOC.js:64-68 | the alert is present iff `showInfo`; it carries this panel's `InfoContent(title)`, which is a description iff the title is one of the six |
| `SipocSection.SectionView.ShownTooltip` | digital-buck-sipoc/components/InteractiveSIPOC.js:71-84 | a tooltip shows beside an item iff the panel is expanded, the item is one of its items that pass the search text and filter string, it is the hovered item, and its exact text is a tooltip key; it shows that key's text |
| `SipocData.StaticItemsHaveNoBar` | digital-buck-sipoc/components/InteractiveSIPOC.js:99-156 | no line item of the section table contains `'|'` |
| `SipocData.SectionTitlesInOrder` | digital-buck-sipoc/components/InteractiveSIPOC.js:99-156 | the section table has the six titles WHAT, WHO, KEY INPUTS, PROCESS, KEY OUTPUTS, CRITERIA in that order, each once |
| `SipocData.Sections` | digital-buck-sipoc/components/InteractiveSIPOC.js:99-156 | the section table: six titles in order, each with its item texts in display order and its colour tag |
| `SipocData.Tooltips` | digital-buck-sipoc/components/InteractiveSIPOC.js:6-13 | the tooltip texts keyed by exact item text, six entries |
| `SipocData.PredefinedFilters` | digital-buck-sipoc/components/InteractiveSIPOC.js:168-174 | the five category labels in button order |
| `SipocData.TooltipKeysThatAreItems` | digital-buck-sipoc/components/InteractiveSIPOC.js:6-13 | a tooltip key is the exact text of an item iff it is neither "150% virtual representation" nor ".PLMXML extract" |
| `InteractiveSipoc.Without` | digital-buck-sipoc/components/InteractiveSIPOC.js:178 | removing a label drops every occurrence of it and keeps the other labels, in order |
| `InteractiveSipoc.Toggle` | digital-buck-sipoc/components/InteractiveSIPOC.js:176-182 | after a toggle a label is active iff it was active before, except the toggled label, which is active iff it was not; an absent label is appended at the end; a present one leaves a shorter subsequence |
| `InteractiveSipoc.ToggleTwiceRestores` | digital-buck-sipoc/components/InteractiveSIPOC.js:176-182 | toggling an inactive label twice restores the exact list |
| `InteractiveSipoc.ToggleTwiceSameLabels` | digital-buck-sipoc/components/InteractiveSIPOC.js:176-182 | toggling any label twice leaves the same labels active |
| `InteractiveSipoc.ToggleTwiceMovesToEnd` | digital-buck-sipoc/components/InteractiveSIPOC.js:176-182 | toggling an active label twice leaves the other labels in their order and the toggled label last |
| `InteractiveSipoc.ToggleKeepsNoDuplicates` | digital-buck-sipoc/components/InteractiveSIPOC.js:176-182 | a toggle never makes a label active twice |
| `InteractiveSipoc.ToggleAll` | digital-buck-sipoc/components/InteractiveSIPOC.js:176-182 | after a run of clicks every active label was active at the start or was clicked |
| `InteractiveSipoc.ToggleAllKeepsNoDuplicates` | digital-buck-sipoc/components/InteractiveSIPOC.js:97 | starting from the empty list, any run of clicks leaves the active list free of repeats |
| `InteractiveSipoc.FilterString` | digital-buck-sipoc/components/InteractiveSIPOC.js:238 | the filter string is empty iff no label (or only the empty label) is active, equals the label when one is active, and contains `'|'` when two or more are |
| `InteractiveSipoc.FilterStringSplits` | digital-buck-sipoc/components/InteractiveSIPOC.js:238 | when no active label contains `'|'`, cutting the filter string at each `'|'` gives back the active labels in order |
| `InteractiveSipoc.LicenseThenCadString` | digital-buck-sipoc/components/InteractiveSIPOC.js:238 | "License" then "CAD" active are handed to the panels as "License|CAD" |
| `InteractiveSipoc.PredefinedFilterStringEmpty` | digital-buck-sipoc/components/InteractiveSIPOC.js:168-174 | with only the five predefined labels, the filter string is empty exactly when none is active |
| `InteractiveSipoc.VisibleItems` | digital-buck-sipoc/components/InteractiveSIPOC.js:231-239 | a panel's list under the root view's state is a subsequence of its items holding exactly the items that match the search text and the joined label string; with no label active it is the search-only filter |
| `InteractiveSipoc.OneLabelVisible` | digital-buck-sipoc/components/InteractiveSIPOC.js:231-239 | with one active label, a panel lists exactly its items that mention both the search text and that label, ignoring letter case |
| `InteractiveSipoc.MultipleLabelsNeedBar` | digital-buck-sipoc/components/InteractiveSIPOC.js:238 | with two or more active labels, every listed item contains `'|'` |
| `InteractiveSipoc.MultipleLabelsHideEverySection` | digital-buck-sipoc/components/InteractiveSIPOC.js:238 | with two or more active labels, every panel of the table lists nothing, whatever the search text |
| `InteractiveSipoc.AtMostOneLabelIsAnyLabel` | digital-buck-sipoc/components/InteractiveSIPOC.js:29 | with at most one active label, the joined-string test agrees with "the item mentions one of the labels" |
| `InteractiveSipoc.LicenseAndCadHideLicenseItem` | digital-buck-sipoc/components/InteractiveSIPOC.js:238 | with "License" and "CAD" active, "TCe license for PLMXML export" mentions one of them yet is not listed |
| `InteractiveSipoc.BuildLabelInWho` | digital-buck-sipoc/components/InteractiveSIPOC.js:110-117 | with only "Build" active and no search text, WHO lists only "Daily build by 07:00 hrs" |
| `InteractiveSipoc.RootView.constructor` | digital-buck-sipoc/components/InteractiveSIPOC.js:95-97 | the root view starts with an empty search text and no active label |
| `InteractiveSipoc.RootView.SetSearchTerm` | digital-buck-sipoc/components/InteractiveSIPOC.js:199 | a keystroke replaces the search text and leaves the labels alone |
| `InteractiveSipoc.RootView.ToggleFilter` | digital-buck-sipoc/components/InteractiveSIPOC.js:176-182 | a button click sets the labels to `Toggle` of the old ones, keeps them free of repeats, and leaves the search text alone |
| `InteractiveSipoc.RootView.PassedFilter` | digital-buck-sipoc/components/InteractiveSIPOC.js:238 | the string handed to the panels is `FilterString` of the active labels (the labels joined with `'|'`, given back by `FilterStringSplits`), empty iff no label (or only the empty label) is active |
| `InteractiveSipoc.RootView.PanelItems` | digital-buck-sipoc/components/InteractiveSIPOC.js:231-239 | the `k`-th panel lists `VisibleItems` of its items under the current search text and labels: a subsequence holding exactly the items that match the search text and the joined label string, and nothing at all once two labels are active |

## Left out

- Rendering: JSX, CSS class strings, icons, the `Alert` and `Tooltip` components and the
  two-column layout are presentation only.
- `exportToJSON`: it builds a data URL with `JSON.stringify` and `encodeURIComponent` and
  clicks a DOM anchor, which is browser I/O. The table it writes is modelled as the
  constant `SipocData.Sections`.
- `Strings.Lower`: models ASCII case folding only, not the full Unicode rules of
  `toLowerCase`. Every item, title and label in the tables is ASCII, but the search text
  is free input: a non-ASCII character that JavaScript folds to an ASCII letter (the
  Kelvin sign folds to "k") matches in the component and not in the model.
- Inherited object keys: `tooltips[item]` and `infoContent[title]` would also find
  names such as `constructor` on the object prototype. No item or title is such a name,
  so `Tooltip` and `InfoContent` look only at their own tables.
- React runtime behaviour: re-render timing, state batching and event propagation are
  not modelled; only the state each event handler produces is. `SectionView.ClickInfo`
  states the result of stopping propagation (the header does not also toggle).
- The unused `filter`/`setFilter` state of the root view (line 96) has no behaviour.
- The button highlight (`activeFilters.includes(filterOption)`, line 210) only picks a
  CSS class.
