/**
 * The side panel of the fragments page.  Its snippets are not its own: the
 * page passes its `previewCode` registry in as a prop.
 */
module FragmentsPanel {
  import opened Wrappers
  import opened Catalogue
  import CopyFeedback

  /** `propsData`: the prop rows documented for each fragment. */
  const ComboboxProps: seq<PropDoc> := [
    PropDoc("value", "string",
            "Currently selected value. Should match one of the ComboboxItem values."),
    PropDoc("onValueChange", "(value: string) => void",
            "Callback fired when selection changes. Receives the new selected value."),
    PropDoc("disabled", "boolean",
            "Disables the combobox when true. User cannot open dropdown or search."),
    PropDoc("placeholder", "string",
            "Placeholder text shown when no value is selected."),
    PropDoc("searchPlaceholder", "string",
            "Placeholder text for the search input inside the dropdown."),
    PropDoc("emptyMessage", "string",
            "Message displayed when search returns no results. Default: 'No results found.'")
  ]
  const DatatableProps: seq<PropDoc> := [
    PropDoc("columns", "ColumnDef[]",
            "Array of column definitions. Each defines accessor, header, cell renderer, and sorting behavior."),
    PropDoc("data", "T[]",
            "Array of data objects to display in the table. Type T matches your data structure."),
    PropDoc("onRowClick", "(row: T) => void",
            "Callback when a row is clicked. Receives the row data object."),
    PropDoc("sorting", "SortingState",
            "Current sorting state. Use with onSortingChange for controlled sorting."),
    PropDoc("onSortingChange", "(sorting: SortingState) => void",
            "Callback when sorting changes. Used with @tanstack/react-table."),
    PropDoc("filtering", "boolean",
            "Enable column filtering capabilities. Adds filter inputs to column headers."),
    PropDoc("pagination", "boolean",
            "Enable pagination controls at the bottom of the table.")
  ]
  const BreadcrumbsProps: seq<PropDoc> := [
    PropDoc("items", "BreadcrumbItem[]",
            "Array of breadcrumb items. Each has: { label: string, href?: string, current?: boolean }"),
    PropDoc("separator", "ReactNode",
            "Custom separator between breadcrumb items. Default is '/' or chevron icon."),
    PropDoc("maxItems", "number",
            "Maximum items to show before collapsing. Middle items become '...' if exceeded."),
    PropDoc("className", "string",
            "Additional CSS classes for the breadcrumb container.")
  ]
  const ToggleProps: seq<PropDoc> := [
    PropDoc("pressed", "boolean",
            "Controls the pressed/active state of the toggle button. True = active/pressed."),
    PropDoc("onPressedChange", "(pressed: boolean) => void",
            "Callback when toggle state changes. Receives new pressed state."),
    PropDoc("disabled", "boolean",
            "Disables the toggle when true. Button appears grayed out and cannot be toggled."),
    PropDoc("variant", "'default' | 'outline'",
            "Visual style: default (filled background when pressed) or outline (border style)."),
    PropDoc("size", "'default' | 'sm' | 'lg'",
            "Button size: default, small (sm), or large (lg).")
  ]
  const TogglegroupProps: seq<PropDoc> := [
    PropDoc("type", "'single' | 'multiple'",
            "Selection mode: 'single' allows one selection only, 'multiple' allows multiple selections at once."),
    PropDoc("value", "string | string[]",
            "Current selected value(s). String for single, array for multiple. Use with onValueChange."),
    PropDoc("onValueChange", "(value: string | string[]) => void",
            "Callback when selection changes. Receives string or array depending on type."),
    PropDoc("disabled", "boolean",
            "Disables all toggle items in the group when true."),
    PropDoc("variant", "'default' | 'outline'",
            "Visual style applied to all toggle items in the group."),
    PropDoc("defaultValue", "string | string[]",
            "Initial value for uncontrolled toggle group. Type depends on single/multiple mode.")
  ]
  const ResizableProps: seq<PropDoc> := [
    PropDoc("direction", "'horizontal' | 'vertical'",
            "Resize direction: horizontal (left-right) or vertical (top-bottom)."),
    PropDoc("defaultSize", "number",
            "Initial size of the resizable panel as a percentage (0-100) or pixels."),
    PropDoc("minSize", "number",
            "Minimum allowed size. Prevents panel from being resized smaller than this value."),
    PropDoc("maxSize", "number",
            "Maximum allowed size. Prevents panel from being resized larger than this value."),
    PropDoc("onResize", "(size: number) => void",
            "Callback fired during resize. Receives current size in pixels or percentage."),
    PropDoc("collapsible", "boolean",
            "Allows panel to collapse to minimum size or hidden. Useful for sidebar layouts."),
    PropDoc("collapsedSize", "number",
            "Size when collapsed. Usually 0 to hide completely or small value to show icon bar.")
  ]

  const PropsData: Registry<seq<PropDoc>> := [
    Entry("combobox", ComboboxProps),
    Entry("datatable", DatatableProps),
    Entry("breadcrumbs", BreadcrumbsProps),
    Entry("toggle", ToggleProps),
    Entry("togglegroup", TogglegroupProps),
    Entry("resizable", ResizableProps)
  ]

  /** The selector's captions, in declaration order. */
  const ItemKeys := ["combobox", "datatable", "breadcrumbs", "toggle", "togglegroup", "resizable"]

  /** The selector's keys: `Object.keys(propsData)`. */
  function Items(): seq<string>
  {
    Keys(PropsData)
  }

  /** The text `copyCode` writes to the clipboard: `previewCode[selected] || ""`. */
  function CopyText(previewCode: Registry<string>, selected: string): string
  {
    OrElse(Get(previewCode, selected), "")
  }

  /** The code area: `previewCode[selected] || "// No code example available"`. */
  function CodeArea(previewCode: Registry<string>, selected: string): string
  {
    OrElse(Get(previewCode, selected), NoCodeExample)
  }

  /** The props list shown for the selection. */
  function PropRows(selected: string): seq<PropDoc>
  {
    RowsFor(PropsData, selected)
  }

  /** The selector buttons for the current selection. */
  function Buttons(selected: string): seq<SelectorButton>
  {
    Selector(Items(), selected)
  }

  /**
   * `copyCode`: hands `previewCode[selected] || ""` to the clipboard, then
   * sets `copied` and schedules its reset whatever the write does.
   */
  method CopyCode(button: CopyFeedback.CopyButton, previewCode: Registry<string>, selected: string)
    returns (written: string)
    requires button.Valid()
    modifies button
    ensures written == CopyText(previewCode, selected)
    ensures button.State() == CopyFeedback.AfterCopy(old(button.State())) && button.Valid()
  {
    written := CopyText(previewCode, selected);
    button.Copy();
  }

  /** The selector offers the six fragments in declaration order, and they are distinct. */
  lemma ItemOrder()
    ensures Items() == ItemKeys
    ensures Distinct(Items())
  {
  }

  /** A key without props documentation lists no rows. */
  lemma UnknownKeyHasNoRows(selected: string)
    requires selected !in ItemKeys
    ensures PropRows(selected) == []
  {
    ItemOrder();
  }

  /**
   * For any registry with unique keys the page passes in: a key it lacks
   * copies "" and shows the placeholder; a key with a non-empty snippet
   * copies and shows that snippet; `||` treats an empty snippet as missing.
   */
  lemma CopyAndCodeArea(previewCode: Registry<string>, selected: string)
    requires UniqueKeys(previewCode)
    ensures selected !in Keys(previewCode) ==>
      CopyText(previewCode, selected) == "" && CodeArea(previewCode, selected) == NoCodeExample
    ensures forall i :: 0 <= i < |previewCode| && previewCode[i].key == selected ==>
      if previewCode[i].value != "" then
        CopyText(previewCode, selected) == previewCode[i].value &&
        CodeArea(previewCode, selected) == previewCode[i].value
      else
        CopyText(previewCode, selected) == "" && CodeArea(previewCode, selected) == NoCodeExample
  {
    forall i | 0 <= i < |previewCode| && previewCode[i].key == selected
      ensures Get(previewCode, selected) == Some(previewCode[i].value)
    {
      GetDeclared(previewCode, i);
    }
  }

  /**
   * Exactly one selector button is highlighted when the selection is a
   * fragment, none otherwise; each button selects its own key.
   */
  lemma SelectorHighlightsSelection(selected: string)
    ensures var bs := Buttons(selected);
      |bs| == |ItemKeys| &&
      (forall i :: 0 <= i < |bs| ==> bs[i].onSelect == ItemKeys[i] && (bs[i].highlighted <==> ItemKeys[i] == selected)) &&
      (selected in ItemKeys <==> exists i :: 0 <= i < |bs| && bs[i].highlighted) &&
      (forall i, j :: 0 <= i < |bs| && 0 <= j < |bs| && bs[i].highlighted && bs[j].highlighted ==> i == j)
  {
    ItemOrder();
    HighlightedButtons(Items(), selected);
  }
}
