/**
 * The side panel of the dialog page: five documented overlays, a snippet for
 * each, and lookups without a fallback.  The page can also select
 * "Tooltip", which neither registry knows.
 */
module DialogPanel {
  import opened Wrappers
  import opened Catalogue
  import CopyFeedback

  /** `propsData`: the prop rows documented for each overlay. */
  const DialogProps: seq<PropDoc> := [
    PropDoc("open", "boolean",
            "Controls dialog visibility"),
    PropDoc("onOpenChange", "(open:boolean)=>void",
            "Callback when open state changes")
  ]
  const PopoverProps: seq<PropDoc> := [
    PropDoc("open", "boolean",
            "Popover visibility"),
    PropDoc("trigger", "ReactNode",
            "Element that triggers popover")
  ]
  const AlertDialogProps: seq<PropDoc> := [
    PropDoc("open", "boolean",
            "Controls AlertDialog visibility"),
    PropDoc("onOpenChange", "(open:boolean)=>void",
            "Callback on state change")
  ]
  const ToastProps: seq<PropDoc> := [
    PropDoc("title", "string",
            "Title of the toast"),
    PropDoc("description", "string",
            "Optional description"),
    PropDoc("duration", "number",
            "Time in ms before toast disappears"),
    PropDoc("action", "ReactNode",
            "Optional button/action inside the toast")
  ]
  const HoverCardProps: seq<PropDoc> := [
    PropDoc("open / defaultOpen", "boolean",
            "Controls whether the hover card is open. Use controlled open for external state."),
    PropDoc("openDelay", "number",
            "Time in ms to wait before opening the hover card after hover."),
    PropDoc("closeDelay", "number",
            "Time in ms to wait before closing the hover card after unhover."),
    PropDoc("onOpenChange", "(open: boolean) => void",
            "Callback when open state changes."),
    PropDoc("children", "ReactNode",
            "Trigger and content slots (usually HoverCardTrigger + HoverCardContent).")
  ]

  const PropsData: Registry<seq<PropDoc>> := [
    Entry("Dialog", DialogProps),
    Entry("Popover", PopoverProps),
    Entry("AlertDialog", AlertDialogProps),
    Entry("Toast", ToastProps),
    Entry("HoverCard", HoverCardProps)
  ]

  /** `previewCode`: the usage snippet of each overlay. */
  const DialogCode := "<Dialog>\n<DialogTrigger asChild><Button>Open Dialog</Button></DialogTrigger>\n<DialogContent>\n  <DialogHeader>\n    <DialogTitle>Dialog Title</DialogTitle>\n    <DialogDescription>Description here</DialogDescription>\n  </DialogHeader>\n  <DialogFooter>\n    <Button>Close</Button>\n  </DialogFooter>\n</DialogContent>\n</Dialog>"
  const PopoverCode := "<Popover>\n<PopoverTrigger asChild><Button>Open Popover</Button></PopoverTrigger>\n<PopoverContent>Popover content</PopoverContent>\n</Popover>"
  const AlertDialogCode := "<AlertDialog>\n<AlertDialogTrigger asChild><Button>Delete</Button></AlertDialogTrigger>\n<AlertDialogContent>\n  <AlertDialogHeader>\n    <AlertDialogTitle>Are you sure?</AlertDialogTitle>\n    <AlertDialogDescription>Deleting cannot be undone.</AlertDialogDescription>\n  </AlertDialogHeader>\n  <AlertDialogCancel>Cancel</AlertDialogCancel>\n  <AlertDialogAction>Delete</AlertDialogAction>\n</AlertDialogContent>\n</AlertDialog>"
  const ToastCode := "<Button onClick={() => toast('This is a toast!')}>Show Toast</Button>"
  const HoverCardCode := " <HoverCard>\n      <HoverCardTrigger asChild>\n        <Button variant=\"link\">@nextjs</Button>\n      </HoverCardTrigger>\n      <HoverCardContent className=\"w-80\">\n        <div className=\"flex justify-between space-x-4\">\n          <Avatar>\n            <AvatarImage src=\"https://github.com/shadcn.png\" />\n            <AvatarFallback>VC</AvatarFallback>\n          </Avatar>\n          <div className=\"space-y-1\">\n            <h4 className=\"text-sm font-semibold\">@nextjs</h4>\n            <p className=\"text-sm\">\n              The React Framework \U{2013} created and maintained by @vercel.\n            </p>\n            <div className=\"flex items-center pt-2\">\n              <CalendarDays className=\"mr-2 h-4 w-4 opacity-70\" />{\" \"}\n              <span className=\"text-xs text-muted-foreground\">\n                Joined December 2021\n              </span>\n            </div>\n          </div>\n        </div>\n      </HoverCardContent>\n    </HoverCard>"

  const PreviewCode: Registry<string> := [
    Entry("Dialog", DialogCode),
    Entry("Popover", PopoverCode),
    Entry("AlertDialog", AlertDialogCode),
    Entry("Toast", ToastCode),
    Entry("HoverCard", HoverCardCode)
  ]

  /** The selector's captions, in declaration order. */
  const ItemKeys := ["Dialog", "Popover", "AlertDialog", "Toast", "HoverCard"]

  /** The keys the dialog page selects: its initial key and those its previews set. */
  const DemoSelections := ["Dialog", "Popover", "AlertDialog", "Toast", "HoverCard", "Tooltip"]

  /** The selector's keys: `Object.keys(propsData)`. */
  function Items(): seq<string>
  {
    Keys(PropsData)
  }

  /**
   * The text `copyCode` writes as the code stands: `writeText(previewCode[selected])`
   * with no fallback, so a missing snippet reaches the clipboard as "undefined".
   */
  function CopyTextAsWritten(selected: string): string
  {
    DomString(Get(PreviewCode, selected))
  }

  /** The text `copyCode` is evidently meant to write: `previewCode[selected] ?? ""`. */
  function CopyText(selected: string): string
  {
    Coalesce(Get(PreviewCode, selected), "")
  }

  /** The code area: `{previewCode[selected]}`, empty when there is no snippet. */
  function CodeArea(selected: string): string
  {
    Rendered(Get(PreviewCode, selected))
  }

  /** The props list shown for the selection. */
  function PropRows(selected: string): seq<PropDoc>
  {
    RowsFor(PropsData, selected)
  }

  /** The selector buttons for the current selection. */
  function Buttons(selected: string): seq<SelectorButton>
  {
    Selector(Items(), selected)
  }

  /**
   * `copyCode` as the code stands: hands `previewCode[selected]` to the
   * clipboard with no fallback, then sets `copied` and schedules its reset.
   */
  method CopyCode(button: CopyFeedback.CopyButton, selected: string) returns (written: string)
    requires button.Valid()
    modifies button
    ensures written == CopyTextAsWritten(selected)
    ensures button.State() == CopyFeedback.AfterCopy(old(button.State())) && button.Valid()
  {
    written := CopyTextAsWritten(selected);
    button.Copy();
  }

  /**
   * `copyCode` with the evidently intended `?? ""`: it writes exactly what
   * the code area shows, then sets `copied` and schedules its reset.
   */
  method CopyCodeCorrected(button: CopyFeedback.CopyButton, selected: string) returns (written: string)
    requires button.Valid()
    modifies button
    ensures written == CopyText(selected) && written == CodeArea(selected)
    ensures button.State() == CopyFeedback.AfterCopy(old(button.State())) && button.Valid()
  {
    written := CopyText(selected);
    CopyWritesWhatIsShown(selected);
    button.Copy();
  }

  /** The selector offers the five overlays in declaration order, and they are distinct. */
  lemma ItemOrder()
    ensures Items() == ItemKeys
    ensures Distinct(Items()) && UniqueKeys(PropsData)
  {
    UniqueKeysOf(PropsData);
  }

  /** The snippet registry has exactly the selector's keys, in the same order. */
  lemma SnippetRegistry()
    ensures Keys(PreviewCode) == Items()
    ensures UniqueKeys(PreviewCode)
  {
    ItemOrder();
    UniqueKeysOf(PreviewCode);
  }

  /** A key with a snippet copies and shows exactly that snippet, as written and as corrected. */
  lemma KnownKeyCopiesSnippet(selected: string)
    ensures forall i :: 0 <= i < |PreviewCode| && PreviewCode[i].key == selected ==>
      CopyTextAsWritten(selected) == PreviewCode[i].value &&
      CopyText(selected) == PreviewCode[i].value &&
      CodeArea(selected) == PreviewCode[i].value
  {
    SnippetRegistry();
    forall i | 0 <= i < |PreviewCode| && PreviewCode[i].key == selected
      ensures CopyTextAsWritten(selected) == PreviewCode[i].value && CopyText(selected) == PreviewCode[i].value
    {
      GetDeclared(PreviewCode, i);
    }
  }

  /** The corrected copy writes exactly what the code area shows, for every key. */
  lemma CopyWritesWhatIsShown(selected: string)
    ensures CopyText(selected) == CodeArea(selected)
    ensures selected in Keys(PreviewCode) ==> CopyText(selected) == CopyTextAsWritten(selected)
  {
  }

  /**
   * The dialog page can select "Tooltip", which has neither props nor a
   * snippet: the props list and the code area are empty, yet the code as
   * written copies the text "undefined".
   */
  lemma TooltipCopiesUndefined()
    ensures "Tooltip" in DemoSelections && "Tooltip" !in Items() && "Tooltip" !in Keys(PreviewCode)
    ensures PropRows("Tooltip") == [] && CodeArea("Tooltip") == ""
    ensures CopyTextAsWritten("Tooltip") == "undefined"
    ensures CopyText("Tooltip") == ""
  {
    SnippetRegistry();
  }

  /** A key without props documentation lists no rows. */
  lemma UnknownKeyHasNoRows(selected: string)
    requires selected !in ItemKeys
    ensures PropRows(selected) == []
  {
    ItemOrder();
  }

  /**
   * Exactly one selector button is highlighted when the selection is an
   * overlay, none otherwise ("Tooltip" highlights none); each button selects
   * its own key.
   */
  lemma SelectorHighlightsSelection(selected: string)
    ensures var bs := Buttons(selected);
      |bs| == |ItemKeys| &&
      (forall i :: 0 <= i < |bs| ==> bs[i].onSelect == ItemKeys[i] && (bs[i].highlighted <==> ItemKeys[i] == selected)) &&
      (selected in ItemKeys <==> exists i :: 0 <= i < |bs| && bs[i].highlighted) &&
      (forall i, j :: 0 <= i < |bs| && 0 <= j < |bs| && bs[i].highlighted && bs[j].highlighted ==> i == j)
  {
    ItemOrder();
    HighlightedButtons(Items(), selected);
  }
}
