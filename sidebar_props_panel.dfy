/**
 * The stateless props panel the sidebar page uses: five documented widgets,
 * snippets passed in by the page, and `??` fallbacks for both the code area
 * and the copy.  It keeps no state, so the whole panel is a function of its
 * props.
 */
module SidebarPropsPanel {
  import opened Wrappers
  import opened Catalogue

  /** `propsData`: the prop rows documented for each widget. */
  const CollapsibleProps: seq<PropDoc> := [
    PropDoc("open / defaultOpen", "boolean",
            "Controls whether the collapsible is open. Use controlled open for external state."),
    PropDoc("onOpenChange", "(open: boolean) => void",
            "Callback when open state changes."),
    PropDoc("children", "ReactNode",
            "Trigger and content slots (usually CollapsibleTrigger + CollapsibleContent).")
  ]
  const AccordionProps: seq<PropDoc> := [
    PropDoc("type", "'single' | 'multiple'",
            "Whether multiple items can be open simultaneously."),
    PropDoc("defaultValue", "string | string[]",
            "Which item(s) are initially open."),
    PropDoc("onValueChange", "(value) => void",
            "Callback for value changes.")
  ]
  const PopoverProps: seq<PropDoc> := [
    PropDoc("defaultOpen / open", "boolean",
            "Control whether popover is open."),
    PropDoc("onOpenChange", "(open) => void",
            "Called when popover opens or closes."),
    PropDoc("align", "'start' | 'center' | 'end'",
            "Alignment of the popover content relative to trigger.")
  ]
  const SheetProps: seq<PropDoc> := [
    PropDoc("side", "'left' | 'right' | 'top' | 'bottom'",
            "Which side the sheet opens from."),
    PropDoc("defaultOpen", "boolean",
            "Starts open or closed.")
  ]
  const DialogProps: seq<PropDoc> := [
    PropDoc("open / defaultOpen", "boolean",
            "Control open state."),
    PropDoc("onOpenChange", "(open) => void",
            "Callback for open state changes.")
  ]

  const PropsData: Registry<seq<PropDoc>> := [
    Entry("Collapsible", CollapsibleProps),
    Entry("Accordion", AccordionProps),
    Entry("Popover", PopoverProps),
    Entry("Sheet", SheetProps),
    Entry("Dialog", DialogProps)
  ]

  /** The `previewCode` registry the sidebar page passes in. */
  const SidebarCode := "<Collapsible defaultOpen>\n  <CollapsibleTrigger>Projects</CollapsibleTrigger>\n  <CollapsibleContent>Links inside collapsible</CollapsibleContent>\n</Collapsible>"
  const SheetCode := "<Sheet>\n  <SheetTrigger asChild><Button>Open</Button></SheetTrigger>\n  <SheetContent side=\"left\">Sheet content</SheetContent>\n</Sheet>"
  const AccordionCode := "<Accordion type=\"multiple\" defaultValue={['team']}>\n  <AccordionItem value=\"team\">\n    <AccordionTrigger>Team</AccordionTrigger>\n    <AccordionContent>Content here</AccordionContent>\n  </AccordionItem>\n</Accordion>"
  const CollapsibleCode := "<Collapsible>\n  <CollapsibleTrigger>Section</CollapsibleTrigger>\n  <CollapsibleContent>Content</CollapsibleContent>\n</Collapsible>"

  const DemoPreviewCode: Registry<string> := [
    Entry("Sidebar", SidebarCode),
    Entry("Sheet", SheetCode),
    Entry("Accordion", AccordionCode),
    Entry("Collapsible", CollapsibleCode)
  ]

  /** The selector's captions, in declaration order. */
  const ItemKeys := ["Collapsible", "Accordion", "Popover", "Sheet", "Dialog"]

  /** The sidebar page's initial selection. */
  const DemoInitial := "Sidebar"

  /** The code area's text when there is no snippet. */
  const SelectPrompt := "// Select a component to see example code"

  /** The selector's keys: `Object.keys(propsData)`. */
  function Items(): seq<string>
  {
    Keys(PropsData)
  }

  /** The code area: `previewCode[selected] ?? "// Select a component to see example code"`. */
  function CodeArea(previewCode: Registry<string>, selected: string): string
  {
    Coalesce(Get(previewCode, selected), SelectPrompt)
  }

  /** The text "Copy code" writes to the clipboard: `previewCode[selected] ?? ""`. */
  function CopyText(previewCode: Registry<string>, selected: string): string
  {
    Coalesce(Get(previewCode, selected), "")
  }

  /** The props list shown for the selection. */
  function PropRows(selected: string): seq<PropDoc>
  {
    RowsFor(PropsData, selected)
  }

  /** Everything the panel shows and does for given props. */
  datatype View = View(buttons: seq<SelectorButton>, rows: seq<PropDoc>, code: string, copies: string)

  /** The rendered panel: the same props always give the same view. */
  function Render(previewCode: Registry<string>, selected: string): View
  {
    View(Selector(Items(), selected), PropRows(selected), CodeArea(previewCode, selected), CopyText(previewCode, selected))
  }

  /** The selector offers the five widgets in declaration order, and they are distinct. */
  lemma ItemOrder()
    ensures Items() == ItemKeys
    ensures Distinct(Items()) && UniqueKeys(PropsData)
  {
    UniqueKeysOf(PropsData);
  }

  /** The sidebar page's registry: four snippets, in declaration order. */
  lemma DemoRegistry()
    ensures Keys(DemoPreviewCode) == ["Sidebar", "Sheet", "Accordion", "Collapsible"]
    ensures UniqueKeys(DemoPreviewCode)
  {
    assert Distinct(Keys(DemoPreviewCode));
    UniqueKeysOf(DemoPreviewCode);
  }

  /**
   * For any registry with unique keys the page passes in: a key it lacks
   * copies "" and shows the prompt; a key it has copies and shows that
   * snippet, even an empty one.
   */
  lemma CopyAndCodeArea(previewCode: Registry<string>, selected: string)
    requires UniqueKeys(previewCode)
    ensures selected !in Keys(previewCode) ==>
      CopyText(previewCode, selected) == "" && CodeArea(previewCode, selected) == SelectPrompt
    ensures forall i :: 0 <= i < |previewCode| && previewCode[i].key == selected ==>
      CopyText(previewCode, selected) == previewCode[i].value &&
      CodeArea(previewCode, selected) == previewCode[i].value
  {
    forall i | 0 <= i < |previewCode| && previewCode[i].key == selected
      ensures CopyText(previewCode, selected) == previewCode[i].value
    {
      GetDeclared(previewCode, i);
    }
  }

  /** On the page's first render "Sidebar" lists no props, but its snippet is shown and copied. */
  lemma InitialSelection()
    ensures DemoInitial !in Items()
    ensures Render(DemoPreviewCode, DemoInitial).rows == []
    ensures Render(DemoPreviewCode, DemoInitial).code == DemoPreviewCode[0].value
    ensures Render(DemoPreviewCode, DemoInitial).copies == DemoPreviewCode[0].value
  {
    ItemOrder();
    DemoRegistry();
    CopyAndCodeArea(DemoPreviewCode, DemoInitial);
  }

  /** "Popover" and "Dialog" are offered but the page has no snippet for them. */
  lemma PopoverAndDialogFallBack()
    ensures "Popover" in Items() && "Dialog" in Items()
    ensures CodeArea(DemoPreviewCode, "Popover") == SelectPrompt && CopyText(DemoPreviewCode, "Popover") == ""
    ensures CodeArea(DemoPreviewCode, "Dialog") == SelectPrompt && CopyText(DemoPreviewCode, "Dialog") == ""
  {
    ItemOrder();
    DemoRegistry();
  }

  /**
   * Exactly one selector button is highlighted when the selection is a
   * documented widget, none otherwise ("Sidebar" highlights none); each
   * button selects its own key.
   */
  lemma SelectorHighlightsSelection(previewCode: Registry<string>, selected: string)
    ensures var bs := Render(previewCode, selected).buttons;
      |bs| == |ItemKeys| &&
      (forall i :: 0 <= i < |bs| ==> bs[i].onSelect == ItemKeys[i] && (bs[i].highlighted <==> ItemKeys[i] == selected)) &&
      (selected in ItemKeys <==> exists i :: 0 <= i < |bs| && bs[i].highlighted) &&
      (forall i, j :: 0 <= i < |bs| && 0 <= j < |bs| && bs[i].highlighted && bs[j].highlighted ==> i == j)
  {
    ItemOrder();
    HighlightedButtons(Items(), selected);
  }
}
