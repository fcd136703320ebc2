/**
 * The side panel of the form page: seven documented controls, a snippet for
 * each, and lookups without a fallback -- the code area renders
 * `previewCode[selected]` as it is and `copyCode` hands it to the clipboard
 * as it is.
 */
module FormPanel {
  import opened Wrappers
  import opened Catalogue
  import CopyFeedback

  /** `propsData`: the prop rows documented for each control. */
  const InputProps: seq<PropDoc> := [
    PropDoc("type", "string",
            "Defines the input type - 'text', 'email', 'password', 'number', 'tel', 'url', 'search'. Controls keyboard on mobile and validation behavior."),
    PropDoc("placeholder", "string",
            "Hint text displayed when input is empty. Disappears when user starts typing."),
    PropDoc("disabled", "boolean",
            "When true, prevents user interaction and applies disabled styling. Field won't be included in form submission."),
    PropDoc("value", "string",
            "Controlled value of the input. Use with onChange for controlled components."),
    PropDoc("onChange", "(e) => void",
            "Event handler called when input value changes. Use e.target.value to get the new value.")
  ]
  const TextareaProps: seq<PropDoc> := [
    PropDoc("placeholder", "string",
            "Hint text shown when textarea is empty, useful for providing examples or format guidance."),
    PropDoc("rows", "number",
            "Initial visible text rows. Default is usually 3-4. Textarea auto-expands if needed."),
    PropDoc("disabled", "boolean",
            "Prevents editing when true. Useful for read-only display or during form submission."),
    PropDoc("maxLength", "number",
            "Maximum number of characters allowed. Useful for limiting text input like tweets or descriptions.")
  ]
  const SelectProps: seq<PropDoc> := [
    PropDoc("value", "string",
            "Currently selected value. Must match one of the SelectItem values. Empty string for no selection."),
    PropDoc("onValueChange", "(value: string) => void",
            "Callback fired when selection changes. Receives the new selected value as parameter."),
    PropDoc("disabled", "boolean",
            "Disables the entire select dropdown when true. User cannot open or change selection."),
    PropDoc("defaultValue", "string",
            "Initial value for uncontrolled select. Use either defaultValue or value, not both.")
  ]
  const RadioProps: seq<PropDoc> := [
    PropDoc("value", "string",
            "Currently selected radio option's value. Only one option can be selected at a time."),
    PropDoc("onValueChange", "(value: string) => void",
            "Called when user selects a different radio option. Receives the new selected value."),
    PropDoc("disabled", "boolean",
            "Disables all radio options in the group. Individual RadioGroupItems can also be disabled separately."),
    PropDoc("defaultValue", "string",
            "Initial selected value for uncontrolled radio group. Useful when you don't need to control state.")
  ]
  const CheckboxProps: seq<PropDoc> := [
    PropDoc("checked", "boolean | 'indeterminate'",
            "Controls checkbox state. True = checked, false = unchecked, 'indeterminate' = partial state (useful for 'select all' scenarios)."),
    PropDoc("onCheckedChange", "(checked: boolean) => void",
            "Callback when checkbox is toggled. Receives new checked state as boolean."),
    PropDoc("disabled", "boolean",
            "Prevents interaction when true. Checkbox appears grayed out and cannot be toggled."),
    PropDoc("required", "boolean",
            "Marks checkbox as required in forms. Useful for terms acceptance or required consent checkboxes.")
  ]
  const SwitchProps: seq<PropDoc> := [
    PropDoc("checked", "boolean",
            "Controls the switch state. True = ON (right), false = OFF (left). Use for binary settings."),
    PropDoc("onCheckedChange", "(checked: boolean) => void",
            "Callback when switch is toggled. Receives new boolean state immediately."),
    PropDoc("disabled", "boolean",
            "Disables the switch when true. Useful during loading states or when feature is unavailable."),
    PropDoc("id", "string",
            "HTML id attribute. Connect to a label using htmlFor for better accessibility.")
  ]
  const CalendarProps: seq<PropDoc> := [
    PropDoc("mode", "'single' | 'multiple' | 'range'",
            "Selection mode: 'single' for one date, 'multiple' for several dates, 'range' for start/end date selection."),
    PropDoc("selected", "Date | Date[] | {from: Date, to: Date}",
            "Selected date(s). Type depends on mode: Date for single, Date[] for multiple, object for range."),
    PropDoc("onSelect", "(date) => void",
            "Called when user selects date(s). Parameter type matches the mode: Date, Date[], or range object."),
    PropDoc("disabled", "Date[] | (date: Date) => boolean",
            "Array of disabled dates or function returning true for disabled dates. Useful for blocking past dates or specific days."),
    PropDoc("fromDate", "Date",
            "Earliest selectable date. Dates before this are disabled. Useful for future-only date selection."),
    PropDoc("toDate", "Date",
            "Latest selectable date. Dates after this are disabled. Useful for limiting date range.")
  ]

  const PropsData: Registry<seq<PropDoc>> := [
    Entry("Input", InputProps),
    Entry("Textarea", TextareaProps),
    Entry("Select", SelectProps),
    Entry("Radio", RadioProps),
    Entry("Checkbox", CheckboxProps),
    Entry("Switch", SwitchProps),
    Entry("Calendar", CalendarProps)
  ]

  /** `previewCode`: the usage snippet of each control. */
  const InputCode := "<Controller\n  control={form.control}\n  name=\"email\"\n  render={({ field }) => (\n    <div>\n      <label>Email</label>\n      <Input \n        {...field} \n        type=\"email\"\n        placeholder=\"you@example.com\" \n      />\n    </div>\n  )}\n/>"
  const TextareaCode := "<Controller\n  control={form.control}\n  name=\"message\"\n  render={({ field }) => (\n    <div>\n      <label>Message</label>\n      <Textarea \n        {...field} \n        placeholder=\"Type here...\"\n        rows={4}\n      />\n    </div>\n  )}\n/>"
  const CheckboxCode := "<Controller\n  control={form.control}\n  name=\"checkbox\"\n  render={({ field }) => (\n    <div className=\"flex items-center gap-2\">\n      <Checkbox\n        checked={field.value}\n        onCheckedChange={field.onChange}\n      />\n      <label>Accept Terms</label>\n    </div>\n  )}\n/>"
  const SwitchCode := "<Controller\n  control={form.control}\n  name=\"switch\"\n  render={({ field }) => (\n    <div className=\"flex items-center justify-between\">\n      <label>Enable Notifications</label>\n      <Switch\n        checked={field.value}\n        onCheckedChange={field.onChange}\n      />\n    </div>\n  )}\n/>"
  const RadioCode := "<Controller\n  control={form.control}\n  name=\"radio\"\n  render={({ field }) => (\n    <div>\n      <label>Choose Option</label>\n      <RadioGroup \n        value={field.value}\n        onValueChange={field.onChange}\n      >\n        <div className=\"flex items-center gap-2\">\n          <RadioGroupItem value=\"opt1\" id=\"opt1\" />\n          <label htmlFor=\"opt1\">Option 1</label>\n        </div>\n        <div className=\"flex items-center gap-2\">\n          <RadioGroupItem value=\"opt2\" id=\"opt2\" />\n          <label htmlFor=\"opt2\">Option 2</label>\n        </div>\n      </RadioGroup>\n    </div>\n  )}\n/>"
  const SelectCode := "<Controller\n  control={form.control}\n  name=\"select\"\n  render={({ field }) => (\n    <div>\n      <label>Select Option</label>\n      <Select \n        value={field.value}\n        onValueChange={field.onChange}\n      >\n        <SelectTrigger>\n          <SelectValue placeholder=\"Choose...\" />\n        </SelectTrigger>\n        <SelectContent>\n          <SelectItem value=\"1\">Option 1</SelectItem>\n          <SelectItem value=\"2\">Option 2</SelectItem>\n          <SelectItem value=\"3\">Option 3</SelectItem>\n        </SelectContent>\n      </Select>\n    </div>\n  )}\n/>"
  const CalendarCode := "<Controller\n  control={form.control}\n  name=\"calendar\"\n  render={({ field }) => (\n    <div>\n      <label>Select Date</label>\n      <Calendar\n        mode=\"single\"\n        selected={field.value}\n        onSelect={field.onChange}\n      />\n    </div>\n  )}\n/>"

  const PreviewCode: Registry<string> := [
    Entry("Input", InputCode),
    Entry("Textarea", TextareaCode),
    Entry("Checkbox", CheckboxCode),
    Entry("Switch", SwitchCode),
    Entry("Radio", RadioCode),
    Entry("Select", SelectCode),
    Entry("Calendar", CalendarCode)
  ]

  /** The selector's captions, in declaration order. */
  const ItemKeys := ["Input", "Textarea", "Select", "Radio", "Checkbox", "Switch", "Calendar"]

  /** The keys of `previewCode`, in declaration order. */
  const SnippetKeys := ["Input", "Textarea", "Checkbox", "Switch", "Radio", "Select", "Calendar"]

  /** The keys the form page ever selects: its initial key and those its previews set. */
  const DemoSelections := ["Input", "Textarea", "Checkbox", "Switch", "Radio", "Select", "Calendar"]

  /** The selector's keys: `Object.keys(propsData)`. */
  function Items(): seq<string>
  {
    Keys(PropsData)
  }

  /**
   * The text `copyCode` writes: `writeText(previewCode[selected])` with no
   * fallback, so a missing snippet reaches the clipboard as "undefined".
   */
  function CopyText(selected: string): string
  {
    DomString(Get(PreviewCode, selected))
  }

  /** The code area: `{previewCode[selected]}`, empty when there is no snippet. */
  function CodeArea(selected: string): string
  {
    Rendered(Get(PreviewCode, selected))
  }

  /** The props list shown for the selection. */
  function PropRows(selected: string): seq<PropDoc>
  {
    RowsFor(PropsData, selected)
  }

  /** The selector buttons for the current selection. */
  function Buttons(selected: string): seq<SelectorButton>
  {
    Selector(Items(), selected)
  }

  /** `copyCode`: writes the snippet, then sets `copied` and schedules its reset. */
  method CopyCode(button: CopyFeedback.CopyButton, selected: string) returns (written: string)
    requires button.Valid()
    modifies button
    ensures written == CopyText(selected)
    ensures button.State() == CopyFeedback.AfterCopy(old(button.State())) && button.Valid()
  {
    written := CopyText(selected);
    button.Copy();
  }

  /** The seven control names are distinct. */
  lemma ItemKeysDistinct()
    ensures Distinct(ItemKeys)
  {
  }

  /** The seven snippet names are distinct. */
  lemma SnippetKeysDistinct()
    ensures Distinct(SnippetKeys)
  {
  }

  /** The selector offers the seven controls in declaration order, and they are distinct. */
  lemma ItemOrder()
    ensures Items() == ItemKeys
    ensures Distinct(Items()) && UniqueKeys(PropsData)
  {
    ItemKeysDistinct();
    UniqueKeysOf(PropsData);
  }

  /** The snippet registry: keys in declaration order, unique. */
  lemma SnippetRegistry()
    ensures Keys(PreviewCode) == SnippetKeys
    ensures UniqueKeys(PreviewCode)
  {
    SnippetKeysDistinct();
    UniqueKeysOf(PreviewCode);
  }

  /** Every documented control has a snippet and every snippet is documented. */
  lemma SameKeySets()
    ensures forall k :: k in Items() <==> k in Keys(PreviewCode)
  {
    ItemOrder();
    SnippetRegistry();
  }

  /**
   * A key with a snippet copies and shows exactly that snippet; a key without
   * one shows nothing and copies the text "undefined".
   */
  lemma CopyAndCodeArea(selected: string)
    ensures selected !in SnippetKeys ==> CopyText(selected) == "undefined" && CodeArea(selected) == ""
    ensures forall i :: 0 <= i < |PreviewCode| && PreviewCode[i].key == selected ==>
      CopyText(selected) == PreviewCode[i].value && CodeArea(selected) == PreviewCode[i].value
  {
    SnippetRegistry();
    forall i | 0 <= i < |PreviewCode| && PreviewCode[i].key == selected
      ensures CopyText(selected) == PreviewCode[i].value && CodeArea(selected) == PreviewCode[i].value
    {
      GetDeclared(PreviewCode, i);
    }
  }

  /** Every key the form page selects is one of the documented controls. */
  lemma DemoSelectsItems()
    ensures forall k :: k in DemoSelections ==> k in Items()
  {
    ItemOrder();
  }

  /**
   * No selection the form page or the selector can make lacks a snippet, so
   * the missing fallback never shows: copy writes what the code area shows.
   */
  lemma ItemsCopyWhatIsShown(selected: string)
    requires selected in Items()
    ensures selected in Keys(PreviewCode) && CopyText(selected) == CodeArea(selected)
  {
    SameKeySets();
  }

  /** A key without props documentation lists no rows. */
  lemma UnknownKeyHasNoRows(selected: string)
    requires selected !in ItemKeys
    ensures PropRows(selected) == []
  {
    ItemOrder();
  }

  /**
   * Exactly one selector button is highlighted when the selection is a
   * control, none otherwise; each button selects its own key.
   */
  lemma SelectorHighlightsSelection(selected: string)
    ensures var bs := Buttons(selected);
      |bs| == |ItemKeys| &&
      (forall i :: 0 <= i < |bs| ==> bs[i].onSelect == ItemKeys[i] && (bs[i].highlighted <==> ItemKeys[i] == selected)) &&
      (selected in ItemKeys <==> exists i :: 0 <= i < |bs| && bs[i].highlighted) &&
      (forall i, j :: 0 <= i < |bs| && 0 <= j < |bs| && bs[i].highlighted && bs[j].highlighted ==> i == j)
  {
    ItemOrder();
    HighlightedButtons(Items(), selected);
  }
}
