/** The fixed tables of the Digital Buck Creation SIPOC: sections, tooltips and filter labels. */
module SipocData {

  /** One panel of the diagram: its title, its line items in display order, its colour tag. */
  datatype Section = Section(title: string, items: seq<string>, color: string)

  /** Explanatory text keyed by the exact text of a line item. */
  const Tooltips: map<string, string> := map[
    "TCe license for PLMXML export" := "Required for exporting PLMXML files from TeamCenter Engineering. Must be active and properly configured.",
    "Vismockup license" := "License for visualization and mockup creation software. Essential for digital buck visualization.",
    "Daily build by 07:00 hrs" := "Automated build process must complete by 7 AM daily to ensure timely availability for all teams.",
    "CAD and OneBom aligned" := "CAD models must perfectly match OneBom specifications to ensure accurate digital representation.",
    "150% virtual representation" := "Includes all possible vehicle variants and configurations (RHD/LHD, engine specs, trim levels, etc.)",
    ".PLMXML extract" := "XML-based file containing complete product structure and metadata for digital buck creation."
  ]

  // Items longer than forty characters are written as concatenations of shorter
  // literals; each is still exactly the item's text.

  const WhatItems: seq<string> := [
    "TCe license for PLMXML export",
    "Vismockup license",
    "Access to Program",
    "Correct Role within TCe",
    "Link to TCe License Data"
  ]

  const WhoItems: seq<string> := [
    "IT Admin - Pradeep Gadhave",
    "VinFast IT for daily .PLMXML extract",
    "Daily build by 07:00 hrs"
  ]

  const KeyInputsItems: seq<string> := [
    "CAD and OneBom aligned",
    "CAD aligned to programme assumptions",
    "VinFast Working Rule - " + "Latest Working Revision",
    "OneBoM validation report",
    "Engineer save working revision to TCe",
    "Revision Control Gates: " + "Design Freeze & Release for Production"
  ]

  const ProcessItems: seq<string> := [
    "TCe Data Export",
    "PLMXML Generation",
    "Variant Configuration Processing:",
    "  - RHD/LHD",
    "  - Engine Specifications",
    "  - Trim Levels"
  ]

  const KeyOutputsItems: seq<string> := [
    ".PLMXML extract - Digibuck file",
    "Attribute assessments (Mass, HMI, " + "NVH, Aero, Thermal, PED, " + "homologation, service)",
    "Virtual Build event"
  ]

  const CriteriaItems: seq<string> := [
    "Ensure 150% virtual representation " + "covering all variants/configurations",
    "Daily build completion by 07:00",
    "Complete attribute assessment validation"
  ]

  /** The section table, in the order its entries are rendered and exported. */
  const Sections: seq<Section> := [
    Section("WHAT", WhatItems, "bg-blue-100"),
    Section("WHO", WhoItems, "bg-green-100"),
    Section("KEY INPUTS", KeyInputsItems, "bg-yellow-100"),
    Section("PROCESS", ProcessItems, "bg-purple-100"),
    Section("KEY OUTPUTS", KeyOutputsItems, "bg-indigo-100"),
    Section("CRITERIA", CriteriaItems, "bg-red-100")
  ]

  /** The category buttons, in display order. */
  const PredefinedFilters: seq<string> := ["License", "CAD", "PLMXML", "Validation", "Build"]

  /** The six SIPOC categories, in table order. */
  const SectionTitles: seq<string> := ["WHAT", "WHO", "KEY INPUTS", "PROCESS", "KEY OUTPUTS", "CRITERIA"]

  /** The section table has exactly the six categories as titles, in that order and each once. */
  lemma SectionTitlesInOrder()
    ensures |Sections| == |SectionTitles|
    ensures forall k :: 0 <= k < |Sections| ==> Sections[k].title == SectionTitles[k]
    ensures forall i, j :: 0 <= i < j < |Sections| ==> Sections[i].title != Sections[j].title
  {
  }

  /** `item` is a line item of some section. */
  ghost predicate IsStaticItem(item: string)
  {
    exists k :: 0 <= k < |Sections| && item in Sections[k].items
  }

  /** No line item of the table contains the character `'|'`. */
  lemma StaticItemsHaveNoBar(item: string)
    requires IsStaticItem(item)
    ensures '|' !in item
  {
    var k :| 0 <= k < |Sections| && item in Sections[k].items;
    var j :| 0 <= j < |Sections[k].items| && Sections[k].items[j] == item;
    if k == 0 { NoBarInWhat(j); }
    else if k == 1 { NoBarInWho(j); }
    else if k == 2 { NoBarInKeyInputs(j); }
    else if k == 3 { NoBarInProcess(j); }
    else if k == 4 { NoBarInKeyOutputs(j); }
    else { NoBarInCriteria(j); }
  }

  lemma NoBarInWhat(j: nat)
    requires j < |WhatItems|
    ensures '|' !in WhatItems[j]
  {
    if j == 0 { NoBarInWhat0(); }
    else if j == 1 { NoBarInWhat1(); }
    else if j == 2 { NoBarInWhat2(); }
    else if j == 3 { NoBarInWhat3(); }
    else { NoBarInWhat4(); }
  }

  lemma NoBarInWho(j: nat)
    requires j < |WhoItems|
    ensures '|' !in WhoItems[j]
  {
    if j == 0 { NoBarInWho0(); }
    else if j == 1 { NoBarInWho1(); }
    else { NoBarInWho2(); }
  }

  lemma NoBarInKeyInputs(j: nat)
    requires j < |KeyInputsItems|
    ensures '|' !in KeyInputsItems[j]
  {
    if j == 0 { NoBarInKeyInputs0(); }
    else if j == 1 { NoBarInKeyInputs1(); }
    else if j == 2 { NoBarInKeyInputs2(); }
    else if j == 3 { NoBarInKeyInputs3(); }
    else if j == 4 { NoBarInKeyInputs4(); }
    else { NoBarInKeyInputs5(); }
  }

  lemma NoBarInProcess(j: nat)
    requires j < |ProcessItems|
    ensures '|' !in ProcessItems[j]
  {
    if j == 0 { NoBarInProcess0(); }
    else if j == 1 { NoBarInProcess1(); }
    else if j == 2 { NoBarInProcess2(); }
    else if j == 3 { NoBarInProcess3(); }
    else if j == 4 { NoBarInProcess4(); }
    else { NoBarInProcess5(); }
  }

  lemma NoBarInKeyOutputs(j: nat)
    requires j < |KeyOutputsItems|
    ensures '|' !in KeyOutputsItems[j]
  {
    if j == 0 { NoBarInKeyOutputs0(); }
    else if j == 1 { NoBarInKeyOutputs1(); }
    else { NoBarInKeyOutputs2(); }
  }

  lemma NoBarInCriteria(j: nat)
    requires j < |CriteriaItems|
    ensures '|' !in CriteriaItems[j]
  {
    if j == 0 { NoBarInCriteria0(); }
    else if j == 1 { NoBarInCriteria1(); }
    else { NoBarInCriteria2(); }
  }

  // One lemma per item: each literal is inspected on its own.

  lemma NoBarInWhat0() ensures '|' !in WhatItems[0] { }
  lemma NoBarInWhat1() ensures '|' !in WhatItems[1] { }
  lemma NoBarInWhat2() ensures '|' !in WhatItems[2] { }
  lemma NoBarInWhat3() ensures '|' !in WhatItems[3] { }
  lemma NoBarInWhat4() ensures '|' !in WhatItems[4] { }

  lemma NoBarInWho0() ensures '|' !in WhoItems[0] { }
  lemma NoBarInWho1() ensures '|' !in WhoItems[1] { }
  lemma NoBarInWho2() ensures '|' !in WhoItems[2] { }

  lemma NoBarInKeyInputs0() ensures '|' !in KeyInputsItems[0] { }
  lemma NoBarInKeyInputs1() ensures '|' !in KeyInputsItems[1] { }
  lemma NoBarInKeyInputs2() ensures '|' !in KeyInputsItems[2] { }
  lemma NoBarInKeyInputs3() ensures '|' !in KeyInputsItems[3] { }
  lemma NoBarInKeyInputs4() ensures '|' !in KeyInputsItems[4] { }
  lemma NoBarInKeyInputs5() ensures '|' !in KeyInputsItems[5] { }

  lemma NoBarInProcess0() ensures '|' !in ProcessItems[0] { }
  lemma NoBarInProcess1() ensures '|' !in ProcessItems[1] { }
  lemma NoBarInProcess2() ensures '|' !in ProcessItems[2] { }
  lemma NoBarInProcess3() ensures '|' !in ProcessItems[3] { }
  lemma NoBarInProcess4() ensures '|' !in ProcessItems[4] { }
  lemma NoBarInProcess5() ensures '|' !in ProcessItems[5] { }

  lemma NoBarInKeyOutputs0() ensures '|' !in KeyOutputsItems[0] { }
  lemma NoBarInKeyOutputs1() ensures '|' !in KeyOutputsItems[1] { }
  lemma NoBarInKeyOutputs2() ensures '|' !in KeyOutputsItems[2] { }

  lemma NoBarInCriteria0() ensures '|' !in CriteriaItems[0] { }
  lemma NoBarInCriteria1() ensures '|' !in CriteriaItems[1] { }
  lemma NoBarInCriteria2() ensures '|' !in CriteriaItems[2] { }

  /**
   * Four tooltip keys are the exact text of an item; "150% virtual representation" and
   * ".PLMXML extract" are only parts of longer items, so no item carries their tooltips.
   */
  lemma TooltipKeysThatAreItems(key: string)
    requires key in Tooltips
    ensures IsStaticItem(key) <==> key != "150% virtual representation" && key != ".PLMXML extract"
  {
    if key == "TCe license for PLMXML export" || key == "Vismockup license" {
      assert key in Sections[0].items;
    } else if key == "Daily build by 07:00 hrs" {
      assert key in Sections[1].items;
    } else if key == "CAD and OneBom aligned" {
      assert key in Sections[2].items;
    } else if IsStaticItem(key) {
      var k :| 0 <= k < |Sections| && key in Sections[k].items;
      if k == 0 { NotPartialKeyInWhat(key); }
      else if k == 1 { NotPartialKeyInWho(key); }
      else if k == 2 { NotPartialKeyInKeyInputs(key); }
      else if k == 3 { NotPartialKeyInProcess(key); }
      else if k == 4 { NotPartialKeyInKeyOutputs(key); }
      else { NotPartialKeyInCriteria(key); }
    }
  }

  lemma NotPartialKeyInWhat(item: string)
    requires item in WhatItems
    ensures item != "150% virtual representation" && item != ".PLMXML extract"
  {
  }

  lemma NotPartialKeyInWho(item: string)
    requires item in WhoItems
    ensures item != "150% virtual representation" && item != ".PLMXML extract"
  {
  }

  lemma NotPartialKeyInKeyInputs(item: string)
    requires item in KeyInputsItems
    ensures item != "150% virtual representation" && item != ".PLMXML extract"
  {
  }

  lemma NotPartialKeyInProcess(item: string)
    requires item in ProcessItems
    ensures item != "150% virtual representation" && item != ".PLMXML extract"
  {
  }

  lemma NotPartialKeyInKeyOutputs(item: string)
    requires item in KeyOutputsItems
    ensures item != "150% virtual representation" && item != ".PLMXML extract"
  {
  }

  lemma NotPartialKeyInCriteria(item: string)
    requires item in CriteriaItems
    ensures item != "150% virtual representation" && item != ".PLMXML extract"
  {
  }
}
