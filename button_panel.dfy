/**
 * The side panel of the button page.  Like the fragments panel it takes its
 * snippets from the page as a prop; the page's registry is included here as
 * the input it is given.
 */
module ButtonPanel {
  import opened Wrappers
  import opened Catalogue
  import CopyFeedback

  /** `propsData`: the prop rows documented for each group of examples. */
  const VariantsProps: seq<PropDoc> := [
    PropDoc("variant", "'default' | 'secondary' | 'destructive' | 'outline' | 'ghost' | 'link'",
            "Visual style of the button. Default (primary blue), secondary (gray), destructive (red/danger), outline (border only), ghost (transparent with hover), link (text link style)."),
    PropDoc("className", "string",
            "Additional CSS classes to customize the button appearance beyond the variant styles.")
  ]
  const SizesProps: seq<PropDoc> := [
    PropDoc("size", "'default' | 'sm' | 'lg' | 'icon'",
            "Button size: default (medium), sm (small/compact), lg (large with more padding), icon (square button for icons only)."),
    PropDoc("asChild", "boolean",
            "When true, renders the button as its child element (useful for wrapping links or other elements while maintaining button styling).")
  ]
  const StatesProps: seq<PropDoc> := [
    PropDoc("disabled", "boolean",
            "Disables the button when true. Prevents clicks, applies disabled styling (grayed out), and sets aria-disabled attribute."),
    PropDoc("loading", "boolean",
            "Shows loading state. Typically used with a spinner icon and disabled state to prevent multiple submissions."),
    PropDoc("type", "'button' | 'submit' | 'reset'",
            "HTML button type. Use 'submit' for form submissions, 'button' for regular clicks, 'reset' to clear forms.")
  ]
  const IconsProps: seq<PropDoc> := [
    PropDoc("children", "ReactNode",
            "Content inside the button. Can include text, icons, or any React elements. Use Lucide icons for consistency."),
    PropDoc("leftIcon", "ReactNode",
            "Icon placed on the left side of button text. Typically wrapped with margin classes like 'mr-2'."),
    PropDoc("rightIcon", "ReactNode",
            "Icon placed on the right side of button text. Typically wrapped with margin classes like 'ml-2'.")
  ]
  const EventsProps: seq<PropDoc> := [
    PropDoc("onClick", "(e: MouseEvent) => void",
            "Click event handler. Called when button is clicked (if not disabled). Receives the click event object."),
    PropDoc("onMouseEnter", "(e: MouseEvent) => void",
            "Mouse enter event handler. Called when mouse pointer enters the button area. Useful for hover effects."),
    PropDoc("onMouseLeave", "(e: MouseEvent) => void",
            "Mouse leave event handler. Called when mouse pointer leaves the button area."),
    PropDoc("onFocus", "(e: FocusEvent) => void",
            "Focus event handler. Called when button receives keyboard focus. Important for accessibility.")
  ]

  const PropsData: Registry<seq<PropDoc>> := [
    Entry("variants", VariantsProps),
    Entry("sizes", SizesProps),
    Entry("states", StatesProps),
    Entry("icons", IconsProps),
    Entry("events", EventsProps)
  ]

  /** The `previewCode` registry the button page passes in. */
  const VariantsCode := "import { Button } from \"@/components/ui/button\";\n\n// Default (Primary)\n<Button>Default</Button>\n\n// Secondary (Muted)\n<Button variant=\"secondary\">Secondary</Button>\n\n// Destructive (Danger/Delete)\n<Button variant=\"destructive\">Destructive</Button>\n\n// Outline (Border only)\n<Button variant=\"outline\">Outline</Button>\n\n// Ghost (Transparent with hover)\n<Button variant=\"ghost\">Ghost</Button>\n\n// Link (Text link style)\n<Button variant=\"link\">Link</Button>"
  const SizesCode := "import { Button } from \"@/components/ui/button\";\nimport { ArrowRight } from \"lucide-react\";\n\n// Small\n<Button size=\"sm\">Small</Button>\n\n// Default (Medium)\n<Button size=\"default\">Default</Button>\n\n// Large\n<Button size=\"lg\">Large</Button>\n\n// Icon (Square)\n<Button size=\"icon\">\n  <ArrowRight className=\"h-4 w-4\" />\n</Button>"
  const StatesCode := "import { Button } from \"@/components/ui/button\";\nimport { Loader2 } from \"lucide-react\";\n\n// Disabled\n<Button disabled>Disabled</Button>\n\n// Loading state\n<Button disabled>\n  <Loader2 className=\"mr-2 h-4 w-4 animate-spin\" />\n  Loading\n</Button>\n\n// With click handler\n<Button onClick={() => console.log('Clicked!')}>\n  Click Me\n</Button>"
  const IconsCode := "import { Button } from \"@/components/ui/button\";\nimport { ArrowRight, Download, Mail } from \"lucide-react\";\n\n// Icon on the right\n<Button>\n  Continue\n  <ArrowRight className=\"ml-2 h-4 w-4\" />\n</Button>\n\n// Icon on the left\n<Button>\n  <Mail className=\"mr-2 h-4 w-4\" />\n  Send Email\n</Button>\n\n// Icon only\n<Button size=\"icon\">\n  <Download className=\"h-4 w-4\" />\n</Button>"
  const EventsCode := "import { Button } from \"@/components/ui/button\";\nimport { useState } from \"react\";\n\nconst [count, setCount] = useState(0);\n\n<Button onClick={() => setCount(count + 1)}>\n  Clicked {count} times\n</Button>\n\n<Button \n  onMouseEnter={() => console.log('Hovered')}\n  onFocus={() => console.log('Focused')}\n>\n  Hover or Focus Me\n</Button>"

  const DemoPreviewCode: Registry<string> := [
    Entry("variants", VariantsCode),
    Entry("sizes", SizesCode),
    Entry("states", StatesCode),
    Entry("icons", IconsCode),
    Entry("events", EventsCode)
  ]

  /** The selector's captions, in declaration order. */
  const ItemKeys := ["variants", "sizes", "states", "icons", "events"]

  /** The selector's keys: `Object.keys(propsData)`. */
  function Items(): seq<string>
  {
    Keys(PropsData)
  }

  /** The text `copyCode` writes to the clipboard: `previewCode[selected] || ""`. */
  function CopyText(previewCode: Registry<string>, selected: string): string
  {
    OrElse(Get(previewCode, selected), "")
  }

  /** The code area: `previewCode[selected] || "// No code example available"`. */
  function CodeArea(previewCode: Registry<string>, selected: string): string
  {
    OrElse(Get(previewCode, selected), NoCodeExample)
  }

  /** The props list shown for the selection. */
  function PropRows(selected: string): seq<PropDoc>
  {
    RowsFor(PropsData, selected)
  }

  /** The selector buttons for the current selection. */
  function Buttons(selected: string): seq<SelectorButton>
  {
    Selector(Items(), selected)
  }

  /**
   * `copyCode`: hands `previewCode[selected] || ""` to the clipboard, then
   * sets `copied` and schedules its reset whatever the write does.
   */
  method CopyCode(button: CopyFeedback.CopyButton, previewCode: Registry<string>, selected: string)
    returns (written: string)
    requires button.Valid()
    modifies button
    ensures written == CopyText(previewCode, selected)
    ensures button.State() == CopyFeedback.AfterCopy(old(button.State())) && button.Valid()
  {
    written := CopyText(previewCode, selected);
    button.Copy();
  }

  /** The selector offers the five groups in declaration order, and they are distinct. */
  lemma ItemOrder()
    ensures Items() == ItemKeys
    ensures Distinct(Items())
  {
  }

  /** The page's registry has exactly the selector's keys, in the same order, and no empty snippet. */
  lemma DemoRegistryMatchesItems()
    ensures Keys(DemoPreviewCode) == Items()
    ensures UniqueKeys(DemoPreviewCode) && NonEmptyValues(DemoPreviewCode)
  {
    ItemOrder();
    UniqueKeysOf(DemoPreviewCode);
  }

  /** A key without props documentation lists no rows. */
  lemma UnknownKeyHasNoRows(selected: string)
    requires selected !in ItemKeys
    ensures PropRows(selected) == []
  {
    ItemOrder();
  }

  /**
   * For any registry with unique keys the page passes in: a key it lacks
   * copies "" and shows the placeholder; a key with a non-empty snippet
   * copies and shows that snippet; `||` treats an empty snippet as missing.
   */
  lemma CopyAndCodeArea(previewCode: Registry<string>, selected: string)
    requires UniqueKeys(previewCode)
    ensures selected !in Keys(previewCode) ==>
      CopyText(previewCode, selected) == "" && CodeArea(previewCode, selected) == NoCodeExample
    ensures forall i :: 0 <= i < |previewCode| && previewCode[i].key == selected ==>
      if previewCode[i].value != "" then
        CopyText(previewCode, selected) == previewCode[i].value &&
        CodeArea(previewCode, selected) == previewCode[i].value
      else
        CopyText(previewCode, selected) == "" && CodeArea(previewCode, selected) == NoCodeExample
  {
    forall i | 0 <= i < |previewCode| && previewCode[i].key == selected
      ensures Get(previewCode, selected) == Some(previewCode[i].value)
    {
      GetDeclared(previewCode, i);
    }
  }

  /** With the page's registry, every selector key copies and shows its own snippet. */
  lemma EveryItemHasSnippet()
    ensures forall i :: 0 <= i < |DemoPreviewCode| ==> DemoPreviewCode[i].key in Items()
    ensures forall i :: 0 <= i < |DemoPreviewCode| ==>
      CopyText(DemoPreviewCode, DemoPreviewCode[i].key) == DemoPreviewCode[i].value &&
      CodeArea(DemoPreviewCode, DemoPreviewCode[i].key) == DemoPreviewCode[i].value
  {
    DemoRegistryMatchesItems();
    forall i | 0 <= i < |DemoPreviewCode|
      ensures CopyText(DemoPreviewCode, DemoPreviewCode[i].key) == DemoPreviewCode[i].value &&
              CodeArea(DemoPreviewCode, DemoPreviewCode[i].key) == DemoPreviewCode[i].value
    {
      CopyAndCodeArea(DemoPreviewCode, DemoPreviewCode[i].key);
    }
  }

  /**
   * Exactly one selector button is highlighted when the selection is a
   * group, none otherwise; each button selects its own key.
   */
  lemma SelectorHighlightsSelection(selected: string)
    ensures var bs := Buttons(selected);
      |bs| == |ItemKeys| &&
      (forall i :: 0 <= i < |bs| ==> bs[i].onSelect == ItemKeys[i] && (bs[i].highlighted <==> ItemKeys[i] == selected)) &&
      (selected in ItemKeys <==> exists i :: 0 <= i < |bs| && bs[i].highlighted) &&
      (forall i, j :: 0 <= i < |bs| && 0 <= j < |bs| && bs[i].highlighted && bs[j].highlighted ==> i == j)
  {
    ItemOrder();
    HighlightedButtons(Items(), selected);
  }
}
