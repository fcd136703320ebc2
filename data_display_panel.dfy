/**
 * The side panel of the data-display page: twelve documented widgets, eleven
 * snippets, copy with the `|| ""` fallback and the `copied` indicator.
 */
module DataDisplayPanel {
  import opened Wrappers
  import opened Catalogue
  import CopyFeedback

  /** `propsData`: the prop rows documented for each widget. */
  const CardsProps: seq<PropDoc> := [
    PropDoc("className", "string",
            "Additional CSS classes for styling the card container."),
    PropDoc("children", "ReactNode",
            "Content to be rendered inside the card.")
  ]
  const TableProps: seq<PropDoc> := [
    PropDoc("className", "string",
            "Additional CSS classes for the table element."),
    PropDoc("children", "ReactNode",
            "TableHeader, TableBody, and TableFooter components containing table structure.")
  ]
  const TabsProps: seq<PropDoc> := [
    PropDoc("defaultValue", "string",
            "The value of the tab that should be active by default. Must match one of the TabsTrigger values."),
    PropDoc("value", "string",
            "Controlled value of the active tab. Use with onValueChange for controlled tabs."),
    PropDoc("onValueChange", "(value: string) => void",
            "Callback when the active tab changes. Receives the new tab value."),
    PropDoc("orientation", "'horizontal' | 'vertical'",
            "Layout orientation of tabs. Horizontal displays tabs in a row, vertical in a column.")
  ]
  const BadgesProps: seq<PropDoc> := [
    PropDoc("variant", "'default' | 'secondary' | 'destructive' | 'outline'",
            "Visual style variant: default (primary color), secondary (muted), destructive (red/danger), outline (border only)."),
    PropDoc("className", "string",
            "Additional CSS classes to customize badge appearance."),
    PropDoc("children", "ReactNode",
            "Text or content displayed inside the badge.")
  ]
  const ProgressProps: seq<PropDoc> := [
    PropDoc("value", "number",
            "Current progress value between 0 and max. Controls the fill percentage of the progress bar."),
    PropDoc("max", "number",
            "Maximum value for the progress bar. Default is 100. Progress is calculated as (value/max) * 100%."),
    PropDoc("className", "string",
            "Additional CSS classes for styling the progress bar container.")
  ]
  const SliderProps: seq<PropDoc> := [
    PropDoc("defaultValue", "number[]",
            "Initial value(s) for uncontrolled slider. Array with one number for single thumb, two for range slider."),
    PropDoc("value", "number[]",
            "Controlled value(s) of the slider. Use with onValueChange for controlled slider."),
    PropDoc("onValueChange", "(value: number[]) => void",
            "Callback fired when slider value changes. Receives array with current value(s)."),
    PropDoc("min", "number",
            "Minimum value of the slider range. Default is 0."),
    PropDoc("max", "number",
            "Maximum value of the slider range. Default is 100."),
    PropDoc("step", "number",
            "Increment step size when moving the slider. Default is 1. Set to 0.1 for decimal values."),
    PropDoc("disabled", "boolean",
            "Disables slider interaction when true. Slider appears grayed out.")
  ]
  const CarouselProps: seq<PropDoc> := [
    PropDoc("orientation", "'horizontal' | 'vertical'",
            "Scroll direction of carousel. Horizontal slides left-right, vertical slides up-down."),
    PropDoc("opts", "object",
            "Embla carousel options like loop (infinite scroll), align (start/center/end), skipSnaps, etc."),
    PropDoc("plugins", "array",
            "Embla plugins for autoplay, fade effects, and other advanced features."),
    PropDoc("setApi", "(api) => void",
            "Callback to access the Embla API for programmatic control (scrollTo, play, pause, etc).")
  ]
  const SkeletonProps: seq<PropDoc> := [
    PropDoc("className", "string",
            "CSS classes to control skeleton dimensions and styling. Common: 'h-4 w-full', 'h-20 w-20 rounded-full'."),
    PropDoc("children", "ReactNode",
            "Optional content. Usually skeletons are self-closing but can wrap content for shimmer effects.")
  ]
  const StatsProps: seq<PropDoc> := [
    PropDoc("N/A", "N/A",
            "Stats cards are typically composed of Card, CardHeader, CardTitle, and CardContent components with custom metrics displayed inside.")
  ]
  const ChartsProps: seq<PropDoc> := [
    PropDoc("data", "array",
            "Array of data objects for the chart. Each object should have keys matching the dataKey props of chart elements."),
    PropDoc("width", "number | string",
            "Chart width. Use ResponsiveContainer for responsive charts that adapt to parent width."),
    PropDoc("height", "number | string",
            "Chart height in pixels or percentage. Required for charts to render properly."),
    PropDoc("margin", "object",
            "Spacing around chart: { top: 5, right: 30, left: 20, bottom: 5 }. Prevents labels from being cut off.")
  ]
  const CalendarProps: seq<PropDoc> := [
    PropDoc("mode", "'single' | 'multiple' | 'range'",
            "Selection mode: 'single' for one date, 'multiple' for several dates, 'range' for start/end date selection."),
    PropDoc("selected", "Date | Date[] | DateRange",
            "Selected date(s). Type depends on mode: Date for single, Date[] for multiple, {from: Date, to: Date} for range."),
    PropDoc("onSelect", "(date) => void",
            "Called when user selects date(s). Parameter type matches the mode."),
    PropDoc("disabled", "Date[] | (date: Date) => boolean",
            "Array of disabled dates or function returning true for disabled dates. Useful for blocking past dates or specific days."),
    PropDoc("fromDate", "Date",
            "Earliest selectable date. Dates before this are disabled."),
    PropDoc("toDate", "Date",
            "Latest selectable date. Dates after this are disabled.")
  ]
  const PaginationProps: seq<PropDoc> := [
    PropDoc("currentPage", "number",
            "Currently active page number. Usually starts at 1."),
    PropDoc("totalPages", "number",
            "Total number of pages available."),
    PropDoc("onPageChange", "(page: number) => void",
            "Callback when user navigates to a different page. Receives new page number."),
    PropDoc("disabled", "boolean",
            "Disables pagination controls when true. Useful during loading states.")
  ]

  const PropsData: Registry<seq<PropDoc>> := [
    Entry("cards", CardsProps),
    Entry("table", TableProps),
    Entry("tabs", TabsProps),
    Entry("badges", BadgesProps),
    Entry("progress", ProgressProps),
    Entry("slider", SliderProps),
    Entry("carousel", CarouselProps),
    Entry("skeleton", SkeletonProps),
    Entry("stats", StatsProps),
    Entry("charts", ChartsProps),
    Entry("calendar", CalendarProps),
    Entry("pagination", PaginationProps)
  ]

  /** `previewCode`: the usage snippet of each widget ("calendar" has none). */
  const CardsCode := "<Card>\n<CardHeader>\n  <CardTitle>Title</CardTitle>\n</CardHeader>\n<CardContent>\n  Card body content\n</CardContent>\n</Card>"
  const TableCode := "<Table>\n<TableHeader>\n  <TableRow>\n    <TableHead>Name</TableHead>\n    <TableHead>Email</TableHead>\n  </TableRow>\n</TableHeader>\n<TableBody>\n  <TableRow>\n    <TableCell>John</TableCell>\n    <TableCell>john@mail.com</TableCell>\n  </TableRow>\n</TableBody>\n</Table>"
  const TabsCode := "<Tabs defaultValue=\"one\">\n<TabsList>\n  <TabsTrigger value=\"one\">One</TabsTrigger>\n  <TabsTrigger value=\"two\">Two</TabsTrigger>\n</TabsList>\n<TabsContent value=\"one\">\n  Content for tab one\n</TabsContent>\n<TabsContent value=\"two\">\n  Content for tab two\n</TabsContent>\n</Tabs>"
  const BadgesCode := "<Badge>New</Badge>\n<Badge variant=\"secondary\">Beta</Badge>\n<Badge variant=\"destructive\">Error</Badge>\n<Badge variant=\"outline\">Draft</Badge>"
  const ProgressCode := "<Progress value={60} max={100} />"
  const SliderCode := "const [value, setValue] = useState([50]);\n\n<Slider \nvalue={value}\nonValueChange={setValue}\nmax={100}\nstep={1}\n/>\n<p>Value: {value[0]}</p>"
  const CarouselCode := "<Carousel>\n<CarouselContent>\n  {items.map((item, i) => (\n    <CarouselItem key={i}>\n      <Card>{item}</Card>\n    </CarouselItem>\n  ))}\n</CarouselContent>\n<CarouselPrevious />\n<CarouselNext />\n</Carousel>"
  const SkeletonCode := "<Skeleton className=\"h-6 w-1/2\" />\n<Skeleton className=\"h-4 w-1/3\" />\n<Skeleton className=\"h-24 w-full\" />"
  const StatsCode := "<Card>\n<CardHeader>\n  <CardTitle>Total Sales</CardTitle>\n</CardHeader>\n<CardContent>\n  <p className=\"text-3xl font-bold\">$12,400</p>\n  <Badge>+12%</Badge>\n</CardContent>\n</Card>"
  const ChartsCode := "import { LineChart, Line, XAxis, YAxis } from \"recharts\";\n\n<ResponsiveContainer width=\"100%\" height={300}>\n<LineChart data={data}>\n  <CartesianGrid strokeDasharray=\"3 3\" />\n  <XAxis dataKey=\"name\" />\n  <YAxis />\n  <Tooltip />\n  <Line type=\"monotone\" dataKey=\"value\" stroke=\"#7c3aed\" />\n</LineChart>\n</ResponsiveContainer>"
  const PaginationCode := "const [page, setPage] = useState(1);\nconst totalPages = 10;\n\n<div className=\"flex items-center gap-4\">\n<Button \n  onClick={() => setPage(p => Math.max(1, p - 1))}\n  disabled={page === 1}\n>\n  Previous\n</Button>\n<span>Page {page} of {totalPages}</span>\n<Button \n  onClick={() => setPage(p => Math.min(totalPages, p + 1))}\n  disabled={page === totalPages}\n>\n  Next\n</Button>\n</div>"

  const PreviewCode: Registry<string> := [
    Entry("cards", CardsCode),
    Entry("table", TableCode),
    Entry("tabs", TabsCode),
    Entry("badges", BadgesCode),
    Entry("progress", ProgressCode),
    Entry("slider", SliderCode),
    Entry("carousel", CarouselCode),
    Entry("skeleton", SkeletonCode),
    Entry("stats", StatsCode),
    Entry("charts", ChartsCode),
    Entry("pagination", PaginationCode)
  ]

  /** The selector's captions, in declaration order. */
  const ItemKeys := ["cards", "table", "tabs", "badges", "progress", "slider",
                     "carousel", "skeleton", "stats", "charts", "calendar", "pagination"]

  /** The keys of `previewCode`, in declaration order: every widget but "calendar". */
  const SnippetKeys := ["cards", "table", "tabs", "badges", "progress", "slider",
                        "carousel", "skeleton", "stats", "charts", "pagination"]

  /** The selector's keys: `Object.keys(propsData)`. */
  function Items(): seq<string>
  {
    Keys(PropsData)
  }

  /** The text `copyCode` writes to the clipboard: `previewCode[selected] || ""`. */
  function CopyText(selected: string): string
  {
    OrElse(Get(PreviewCode, selected), "")
  }

  /** The code area: `previewCode[selected] || "// No code example available"`. */
  function CodeArea(selected: string): string
  {
    OrElse(Get(PreviewCode, selected), NoCodeExample)
  }

  /** The props list shown for the selection. */
  function PropRows(selected: string): seq<PropDoc>
  {
    RowsFor(PropsData, selected)
  }

  /** The selector buttons for the current selection. */
  function Buttons(selected: string): seq<SelectorButton>
  {
    Selector(Items(), selected)
  }

  /**
   * `copyCode`: hands `previewCode[selected] || ""` to the clipboard, then
   * sets `copied` and schedules its reset whatever the write does.
   */
  method CopyCode(button: CopyFeedback.CopyButton, selected: string) returns (written: string)
    requires button.Valid()
    modifies button
    ensures written == CopyText(selected)
    ensures button.State() == CopyFeedback.AfterCopy(old(button.State())) && button.Valid()
  {
    written := CopyText(selected);
    button.Copy();
  }

  /** The twelve widget names are distinct. */
  lemma ItemKeysDistinct()
    ensures Distinct(ItemKeys)
  {
  }

  /** The eleven snippet names are distinct. */
  lemma SnippetKeysDistinct()
    ensures Distinct(SnippetKeys)
  {
  }

  /** The selector offers the twelve widgets in declaration order, and they are distinct. */
  lemma ItemOrder()
    ensures Items() == ItemKeys
    ensures Distinct(Items()) && UniqueKeys(PropsData)
  {
    ItemKeysDistinct();
    UniqueKeysOf(PropsData);
  }

  /** The snippet registry: keys in declaration order, unique, no empty snippet. */
  lemma SnippetRegistry()
    ensures Keys(PreviewCode) == SnippetKeys
    ensures UniqueKeys(PreviewCode) && NonEmptyValues(PreviewCode)
  {
    SnippetKeysDistinct();
    UniqueKeysOf(PreviewCode);
  }

  /** Every widget but "calendar" has a snippet, and every snippet belongs to a widget. */
  lemma SnippetCoverage()
    ensures forall k :: k in SnippetKeys ==> k in Items()
    ensures forall k :: k in Items() ==> (k in Keys(PreviewCode) <==> k != "calendar")
  {
    ItemOrder();
    SnippetRegistry();
  }

  /**
   * A key without a snippet copies "" and shows the placeholder; a key with
   * one copies and shows that snippet.
   */
  lemma CopyAndCodeArea(selected: string)
    ensures selected !in SnippetKeys ==> CopyText(selected) == "" && CodeArea(selected) == NoCodeExample
    ensures forall i :: 0 <= i < |PreviewCode| && PreviewCode[i].key == selected ==>
      CopyText(selected) == PreviewCode[i].value && CodeArea(selected) == PreviewCode[i].value
  {
    SnippetRegistry();
    LookupWithFallback(PreviewCode, selected, "");
    LookupWithFallback(PreviewCode, selected, NoCodeExample);
  }

  /** "calendar" is offered and has six prop rows, but no snippet. */
  lemma CalendarHasNoSnippet()
    ensures "calendar" in Items()
    ensures CopyText("calendar") == "" && CodeArea("calendar") == NoCodeExample
    ensures |PropRows("calendar")| == 6
  {
    ItemOrder();
    SnippetRegistry();
    CopyAndCodeArea("calendar");
    GetDeclared(PropsData, 10);
  }

  /** A key without props documentation lists no rows. */
  lemma UnknownKeyHasNoRows(selected: string)
    requires selected !in ItemKeys
    ensures PropRows(selected) == []
  {
    ItemOrder();
  }

  /**
   * Exactly one selector button is highlighted when the selection is a
   * widget, none otherwise; each button selects its own key.
   */
  lemma SelectorHighlightsSelection(selected: string)
    ensures var bs := Buttons(selected);
      |bs| == |ItemKeys| &&
      (forall i :: 0 <= i < |bs| ==> bs[i].onSelect == ItemKeys[i] && (bs[i].highlighted <==> ItemKeys[i] == selected)) &&
      (selected in ItemKeys <==> exists i :: 0 <= i < |bs| && bs[i].highlighted) &&
      (forall i, j :: 0 <= i < |bs| && 0 <= j < |bs| && bs[i].highlighted && bs[j].highlighted ==> i == j)
  {
    ItemOrder();
    HighlightedButtons(Items(), selected);
  }
}
