/**
 * The fragments page: a searchable table over five fixed records, a
 * framework combobox whose choice can be cleared by choosing it again, the
 * dark flag, and the selection it shares with its side panel.
 */
module FragmentsDemo {
  import opened Wrappers
  import opened Catalogue
  import opened TextSearch
  import opened ArrayFilter
  import DarkMode
  import FragmentsPanel

  /** An entry of `frameworks`: the value the combobox stores and the caption it shows. */
  datatype Framework = Framework(value: string, caption: string)

  const Frameworks := [
    Framework("next.js", "Next.js"),
    Framework("sveltekit", "SvelteKit"),
    Framework("nuxt.js", "Nuxt.js"),
    Framework("remix", "Remix"),
    Framework("astro", "Astro")
  ]

  /** A record of `tableData`. */
  datatype Row = Row(id: int, name: string, email: string, role: string, status: string)

  /** `tableData`: a constant, so nothing on the page can change it. */
  const TableData := [JohnDoe, JaneSmith, BobJohnson, AliceBrown, CharlieWilson]

  const JohnDoe := Row(1, "John Doe", "john@example.com", "Admin", "Active")
  const JaneSmith := Row(2, "Jane Smith", "jane@example.com", "User", "Active")
  const BobJohnson := Row(3, "Bob Johnson", "bob@example.com", "Editor", "Inactive")
  const AliceBrown := Row(4, "Alice Brown", "alice@example.com", "User", "Active")
  const CharlieWilson := Row(5, "Charlie Wilson", "charlie@example.com", "Admin", "Active")

  /** `previewCode`: the snippets this page hands to its side panel. */
  const ComboboxCode := "import { Combobox } from \"@/components/ui/combobox\";\n\nconst [open, setOpen] = useState(false);\nconst [value, setValue] = useState(\"\");\n\n<Popover open={open} onOpenChange={setOpen}>\n  <PopoverTrigger asChild>\n    <Button variant=\"outline\" role=\"combobox\">\n      {value || \"Select framework...\"}\n      <ChevronsUpDown className=\"ml-2 h-4 w-4\" />\n    </Button>\n  </PopoverTrigger>\n  <PopoverContent className=\"w-[200px] p-0\">\n    <Command>\n      <CommandInput placeholder=\"Search...\" />\n      <CommandEmpty>No results found.</CommandEmpty>\n      <CommandGroup>\n        {frameworks.map((framework) => (\n          <CommandItem\n            key={framework.value}\n            onSelect={() => {\n              setValue(framework.value);\n              setOpen(false);\n            }}\n          >\n            <Check className={value === framework.value ? \"mr-2\" : \"mr-2 invisible\"} />\n            {framework.label}\n          </CommandItem>\n        ))}\n      </CommandGroup>\n    </Command>\n  </PopoverContent>\n</Popover>"
  const DatatableCode := "import { Table, TableBody, TableCell, TableHead, TableHeader, TableRow } from \"@/components/ui/table\";\n\nconst data = [\n  { id: 1, name: \"John\", email: \"john@example.com\" },\n  { id: 2, name: \"Jane\", email: \"jane@example.com\" },\n];\n\n<Table>\n  <TableHeader>\n    <TableRow>\n      <TableHead>Name</TableHead>\n      <TableHead>Email</TableHead>\n    </TableRow>\n  </TableHeader>\n  <TableBody>\n    {data.map((row) => (\n      <TableRow key={row.id}>\n        <TableCell>{row.name}</TableCell>\n        <TableCell>{row.email}</TableCell>\n      </TableRow>\n    ))}\n  </TableBody>\n</Table>"
  const BreadcrumbsCode := "import { Breadcrumb, BreadcrumbItem, BreadcrumbLink, BreadcrumbList, BreadcrumbPage, BreadcrumbSeparator } from \"@/components/ui/breadcrumb\";\n\n<Breadcrumb>\n  <BreadcrumbList>\n    <BreadcrumbItem>\n      <BreadcrumbLink href=\"/\">Home</BreadcrumbLink>\n    </BreadcrumbItem>\n    <BreadcrumbSeparator />\n    <BreadcrumbItem>\n      <BreadcrumbLink href=\"/products\">Products</BreadcrumbLink>\n    </BreadcrumbItem>\n    <BreadcrumbSeparator />\n    <BreadcrumbItem>\n      <BreadcrumbPage>Current Page</BreadcrumbPage>\n    </BreadcrumbItem>\n  </BreadcrumbList>\n</Breadcrumb>"
  const ToggleCode := "import { Toggle } from \"@/components/ui/toggle\";\nimport { Bold } from \"lucide-react\";\n\nconst [pressed, setPressed] = useState(false);\n\n<Toggle \n  pressed={pressed}\n  onPressedChange={setPressed}\n  aria-label=\"Toggle bold\"\n>\n  <Bold className=\"h-4 w-4\" />\n</Toggle>"
  const TogglegroupCode := "import { ToggleGroup, ToggleGroupItem } from \"@/components/ui/toggle-group\";\n\nconst [value, setValue] = useState(\"left\");\n\n<ToggleGroup type=\"single\" value={value} onValueChange={setValue}>\n  <ToggleGroupItem value=\"left\">\n    <AlignLeft className=\"h-4 w-4\" />\n  </ToggleGroupItem>\n  <ToggleGroupItem value=\"center\">\n    <AlignCenter className=\"h-4 w-4\" />\n  </ToggleGroupItem>\n  <ToggleGroupItem value=\"right\">\n    <AlignRight className=\"h-4 w-4\" />\n  </ToggleGroupItem>\n</ToggleGroup>"
  const ResizableCode := "import { ResizableHandle, ResizablePanel, ResizablePanelGroup } from \"@/components/ui/resizable\";\n\n<ResizablePanelGroup direction=\"horizontal\">\n  <ResizablePanel defaultSize={50}>\n    <div>Panel 1</div>\n  </ResizablePanel>\n  <ResizableHandle />\n  <ResizablePanel defaultSize={50}>\n    <div>Panel 2</div>\n  </ResizablePanel>\n</ResizablePanelGroup>"

  const PreviewCode: Registry<string> := [
    Entry("combobox", ComboboxCode),
    Entry("datatable", DatatableCode),
    Entry("breadcrumbs", BreadcrumbsCode),
    Entry("toggle", ToggleCode),
    Entry("togglegroup", TogglegroupCode),
    Entry("resizable", ResizableCode)
  ]

  /** The keys the preview cards pass to `handlePreviewClick`, top to bottom. */
  const PreviewClickKeys := ["breadcrumbs", "combobox", "toggle", "togglegroup", "datatable", "resizable"]

  /* ---------------- table search ---------------- */

  /** The filter callback: the lower-cased name or e-mail includes the lower-cased term. */
  predicate Matches(row: Row, term: string)
  {
    Includes(ToLower(row.name), ToLower(term)) || Includes(ToLower(row.email), ToLower(term))
  }

  /** The callback handed to `filter` for a given search term. */
  function SearchCallback(term: string): Row -> bool
  {
    row => Matches(row, term)
  }

  /** `filteredData`: the records the search term keeps. */
  function Search(rows: seq<Row>, term: string): seq<Row>
  {
    Filter(rows, SearchCallback(term))
  }

  /**
   * The search keeps exactly the records whose lower-cased name or e-mail
   * includes the lower-cased term, in their original order.
   */
  lemma SearchKeepsMatches(rows: seq<Row>, term: string)
    ensures forall i :: 0 <= i < |rows| ==> (rows[i] in Search(rows, term) <==> Matches(rows[i], term))
    ensures forall i :: 0 <= i < |Search(rows, term)| ==>
      Search(rows, term)[i] in rows && Matches(Search(rows, term)[i], term)
    ensures SubsequenceOf(Search(rows, term), rows)
  {
    FilterMembers(rows, SearchCallback(term));
    FilterIsSubsequence(rows, SearchCallback(term));
  }

  /** The empty term is included in every string, so it keeps every record. */
  lemma EmptyTermKeepsAll(rows: seq<Row>)
    ensures Search(rows, "") == rows
  {
    forall i | 0 <= i < |rows|
      ensures Matches(rows[i], "")
    {
      assert OccursAt(ToLower(rows[i].name), ToLower(""), 0);
    }
    FilterKeepsAll(rows, SearchCallback(""));
  }

  /** Only the lower-cased term matters: the search ignores the case of what is typed. */
  lemma SearchIgnoresCase(rows: seq<Row>, term: string)
    ensures Search(rows, term) == Search(rows, ToLower(term))
  {
    ToLowerIdempotent(term);
    FilterAgrees(rows, SearchCallback(term), SearchCallback(ToLower(term)));
  }

  /** Searching the search result again with the same term changes nothing. */
  lemma SearchIdempotent(rows: seq<Row>, term: string)
    ensures Search(Search(rows, term), term) == Search(rows, term)
  {
    FilterIdempotent(rows, SearchCallback(term));
  }

  /** The table body: the rows, or the single "No results found" row. */
  datatype TableBody = Rows(rows: seq<Row>) | NoResults

  /** `filteredData.length > 0 ? filteredData.map(...) : <No results found>`. */
  function Body(filtered: seq<Row>): TableBody
  {
    if |filtered| > 0 then Rows(filtered) else NoResults
  }

  /**
   * The badge counts the rows the table shows, and "No results found"
   * appears exactly when no record of the list matches the term.
   */
  lemma NoResultsIffNoMatch(rows: seq<Row>, term: string)
    ensures Body(Search(rows, term)) == NoResults <==> forall i :: 0 <= i < |rows| ==> !Matches(rows[i], term)
    ensures Body(Search(rows, term)).Rows? ==> Body(Search(rows, term)).rows == Search(rows, term)
  {
    FilterEmptyIffNoneAccepted(rows, SearchCallback(term));
  }

  /** The empty search shows all five records. */
  lemma EmptySearchShowsAll()
    ensures Search(TableData, "") == TableData && |Search(TableData, "")| == 5
  {
    EmptyTermKeepsAll(TableData);
  }

  /** "jane" and "admin" are already lower case. */
  lemma LowerCasedTerms()
    ensures ToLower("jane") == "jane" && ToLower("JANE") == "jane" && ToLower("admin") == "admin"
  {
  }

  /**
   * A string in which neither case of the letter `c`, found at position `k`
   * of `t`, occurs does not include `t`, whatever the case of either.
   */
  lemma LetterMissing(s: string, t: string, k: nat, c: char, upper: char)
    requires k < |t| && t[k] == c && 'a' <= c <= 'z' && upper as int == c as int - 32
    requires forall i :: 0 <= i < |s| ==> s[i] !in {c, upper}
    ensures !Includes(ToLower(s), ToLower(t))
  {
    assert ToLower(t)[k] == c;
    MissingCharExcludes(ToLower(s), ToLower(t), c);
  }

  /* The letters of "jane" and "admin" that each name and e-mail address lacks. */

  lemma JohnNameLetters() ensures forall i :: 0 <= i < |"John Doe"| ==> "John Doe"[i] !in {'a', 'A'} {}
  lemma JohnEmailLetters() ensures forall i :: 1 <= i < |"john@example.com"| ==> "john@example.com"[i] !in {'j', 'J'} {}
  lemma JohnEmailNoD() ensures forall i :: 0 <= i < |"john@example.com"| ==> "john@example.com"[i] !in {'d', 'D'} {}
  lemma JaneNameLetters() ensures forall i :: 0 <= i < |"Jane Smith"| ==> "Jane Smith"[i] !in {'d', 'D'} {}
  lemma JaneEmailLetters() ensures forall i :: 0 <= i < |"jane@example.com"| ==> "jane@example.com"[i] !in {'d', 'D'} {}
  lemma BobNameLetters() ensures forall i :: 0 <= i < |"Bob Johnson"| ==> "Bob Johnson"[i] !in {'a', 'A'} {}
  lemma BobEmailLetters() ensures forall i :: 0 <= i < |"bob@example.com"| ==> "bob@example.com"[i] !in {'j', 'J', 'd', 'D'} {}
  lemma AliceNameLetters() ensures forall i :: 0 <= i < |"Alice Brown"| ==> "Alice Brown"[i] !in {'j', 'J', 'd', 'D'} {}
  lemma AliceEmailLetters() ensures forall i :: 0 <= i < |"alice@example.com"| ==> "alice@example.com"[i] !in {'j', 'J', 'd', 'D'} {}
  lemma CharlieNameLetters() ensures forall i :: 0 <= i < |"Charlie Wilson"| ==> "Charlie Wilson"[i] !in {'j', 'J', 'd', 'D'} {}
  lemma CharlieEmailLetters() ensures forall i :: 0 <= i < |"charlie@example.com"| ==> "charlie@example.com"[i] !in {'j', 'J', 'd', 'D'} {}

  /** "john@example.com" holds every letter of "jane", but its only "j" is followed by "o". */
  lemma JohnEmailLacksJane()
    ensures !Includes(ToLower("john@example.com"), ToLower("jane"))
  {
    var s := ToLower("john@example.com");
    var t := ToLower("jane");
    assert t[1] == 'a' && s[1] == 'o';
    assert s[0..4][1] != t[1];
    IncludesPastHead(s, t);
    JohnEmailLetters();
    assert forall i :: 0 <= i < |s[1..]| ==> s[1..][i] == LowerChar("john@example.com"[i + 1]);
    assert t[0] == 'j';
    MissingCharExcludes(s[1..], t, 'j');
  }

  /** John Doe does not match "jane". */
  lemma JohnJane() ensures !Matches(JohnDoe, "jane")
  {
    JohnNameLetters();
    LetterMissing("John Doe", "jane", 1, 'a', 'A');
    JohnEmailLacksJane();
  }

  /** John Doe does not match "admin", though the record's role is Admin. */
  lemma JohnAdmin() ensures !Matches(JohnDoe, "admin")
  {
    JohnNameLetters();
    JohnEmailNoD();
    LetterMissing("John Doe", "admin", 0, 'a', 'A');
    LetterMissing("john@example.com", "admin", 1, 'd', 'D');
  }

  /** Jane Smith matches "jane": the lower-cased name starts with it. */
  lemma JaneJane() ensures Matches(JaneSmith, "jane")
  {
    var s := ToLower("Jane Smith");
    var t := ToLower("jane");
    assert s[0] == 'j' && s[1] == 'a' && s[2] == 'n' && s[3] == 'e';
    assert t[0] == 'j' && t[1] == 'a' && t[2] == 'n' && t[3] == 'e';
    assert s[0..4] == t;
    assert OccursAt(s, t, 0);
  }

  /** Jane Smith does not match "admin". */
  lemma JaneAdmin() ensures !Matches(JaneSmith, "admin")
  {
    JaneNameLetters();
    JaneEmailLetters();
    LetterMissing("Jane Smith", "admin", 1, 'd', 'D');
    LetterMissing("jane@example.com", "admin", 1, 'd', 'D');
  }

  /** Bob Johnson does not match "jane". */
  lemma BobJane() ensures !Matches(BobJohnson, "jane")
  {
    BobNameLetters();
    BobEmailLetters();
    LetterMissing("Bob Johnson", "jane", 1, 'a', 'A');
    LetterMissing("bob@example.com", "jane", 0, 'j', 'J');
  }

  /** Bob Johnson does not match "admin". */
  lemma BobAdmin() ensures !Matches(BobJohnson, "admin")
  {
    BobNameLetters();
    BobEmailLetters();
    LetterMissing("Bob Johnson", "admin", 0, 'a', 'A');
    LetterMissing("bob@example.com", "admin", 1, 'd', 'D');
  }

  /** Alice Brown does not match "jane". */
  lemma AliceJane() ensures !Matches(AliceBrown, "jane")
  {
    AliceNameLetters();
    AliceEmailLetters();
    LetterMissing("Alice Brown", "jane", 0, 'j', 'J');
    LetterMissing("alice@example.com", "jane", 0, 'j', 'J');
  }

  /** Alice Brown does not match "admin". */
  lemma AliceAdmin() ensures !Matches(AliceBrown, "admin")
  {
    AliceNameLetters();
    AliceEmailLetters();
    LetterMissing("Alice Brown", "admin", 1, 'd', 'D');
    LetterMissing("alice@example.com", "admin", 1, 'd', 'D');
  }

  /** Charlie Wilson does not match "jane". */
  lemma CharlieJane() ensures !Matches(CharlieWilson, "jane")
  {
    CharlieNameLetters();
    CharlieEmailLetters();
    LetterMissing("Charlie Wilson", "jane", 0, 'j', 'J');
    LetterMissing("charlie@example.com", "jane", 0, 'j', 'J');
  }

  /** Charlie Wilson does not match "admin", though the record's role is Admin. */
  lemma CharlieAdmin() ensures !Matches(CharlieWilson, "admin")
  {
    CharlieNameLetters();
    CharlieEmailLetters();
    LetterMissing("Charlie Wilson", "admin", 1, 'd', 'D');
    LetterMissing("charlie@example.com", "admin", 1, 'd', 'D');
  }

  /** "jane" matches Jane Smith and no other record. */
  lemma JaneMatchesOneRecord()
    ensures Matches(TableData[1], "jane")
    ensures forall i :: 0 <= i < |TableData| && i != 1 ==> !Matches(TableData[i], "jane")
  {
    JaneJane();
    forall i | 0 <= i < |TableData| && i != 1
      ensures !Matches(TableData[i], "jane")
    {
      if i == 0 {
        JohnJane();
      } else if i == 2 {
        BobJane();
      } else if i == 3 {
        AliceJane();
      } else {
        CharlieJane();
      }
    }
  }

  /** "JANE" and "jane" both keep Jane Smith alone. */
  lemma JaneOnly()
    ensures Search(TableData, "jane") == [TableData[1]]
    ensures Search(TableData, "JANE") == [TableData[1]]
  {
    JaneMatchesOneRecord();
    FilterKeepsOne(TableData, SearchCallback("jane"), 1);
    LowerCasedTerms();
    SearchIgnoresCase(TableData, "JANE");
  }

  /** Roles are not searched: "admin" keeps no row, though two records have the role Admin. */
  lemma AdminMatchesNoRow()
    ensures TableData[0].role == "Admin" && TableData[4].role == "Admin"
    ensures Search(TableData, "admin") == []
  {
    forall i | 0 <= i < |TableData|
      ensures !Matches(TableData[i], "admin")
    {
      if i == 0 {
        JohnAdmin();
      } else if i == 1 {
        JaneAdmin();
      } else if i == 2 {
        BobAdmin();
      } else if i == 3 {
        AliceAdmin();
      } else {
        CharlieAdmin();
      }
    }
    FilterKeepsNone(TableData, SearchCallback("admin"));
  }

  /* ---------------- combobox ---------------- */

  /** `setValue(currentValue === value ? "" : currentValue)`. */
  function Chosen(current: string, chosen: string): string
  {
    if chosen == current then "" else chosen
  }

  /** Choosing the selected framework clears the value; choosing it once more selects it again. */
  lemma ChooseAgainClears(current: string, chosen: string)
    ensures chosen != current ==> Chosen(current, chosen) == chosen && Chosen(Chosen(current, chosen), chosen) == ""
    ensures chosen == current ==> Chosen(current, chosen) == "" && (chosen != "" ==> Chosen(Chosen(current, chosen), chosen) == chosen)
  {
  }

  /** `frameworks.find(f => f.value === value)?.label`, searching from index `i`. */
  function FindCaption(value: string, i: nat): (c: Option<string>)
    requires i <= |Frameworks|
    ensures c.Some? <==> exists j :: i <= j < |Frameworks| && Frameworks[j].value == value
    ensures c.Some? ==> exists j :: i <= j < |Frameworks| && Frameworks[j] == Framework(value, c.value)
    decreases |Frameworks| - i
  {
    if i == |Frameworks| then None
    else if Frameworks[i].value == value then Some(Frameworks[i].caption)
    else FindCaption(value, i + 1)
  }

  /** The trigger button's text: the chosen framework's caption, or the prompt when nothing is chosen. */
  function TriggerText(value: string): string
  {
    if value != "" then Rendered(FindCaption(value, 0)) else "Select framework..."
  }

  /** After choosing framework `i`, the trigger shows its caption, or the prompt if the choice cleared it. */
  lemma TriggerAfterChoice(current: string, i: nat)
    requires i < |Frameworks|
    ensures TriggerText(Chosen(current, Frameworks[i].value)) ==
      if current == Frameworks[i].value then "Select framework..." else Frameworks[i].caption
  {
  }

  /* ---------------- wiring with the side panel ---------------- */

  /** Every key the panel's selector or a preview card can select has a snippet here. */
  lemma EverySelectableKeyHasSnippet()
    ensures forall k :: k in FragmentsPanel.Items() ==> k in Keys(PreviewCode)
    ensures forall k :: k in PreviewClickKeys ==> k in FragmentsPanel.Items()
    ensures forall k :: k in FragmentsPanel.Items() ==>
      FragmentsPanel.CopyText(PreviewCode, k) != "" &&
      FragmentsPanel.CodeArea(PreviewCode, k) == FragmentsPanel.CopyText(PreviewCode, k)
  {
    FragmentsPanel.ItemOrder();
    SnippetRegistry();
    forall k | k in FragmentsPanel.Items()
      ensures FragmentsPanel.CopyText(PreviewCode, k) != "" &&
              FragmentsPanel.CodeArea(PreviewCode, k) == FragmentsPanel.CopyText(PreviewCode, k)
    {
      FragmentsPanel.CopyAndCodeArea(PreviewCode, k);
    }
  }

  /** The snippet registry: keys in declaration order, unique, no empty snippet. */
  lemma SnippetRegistry()
    ensures Keys(PreviewCode) == ["combobox", "datatable", "breadcrumbs", "toggle", "togglegroup", "resizable"]
    ensures UniqueKeys(PreviewCode) && NonEmptyValues(PreviewCode)
  {
    assert Distinct(Keys(PreviewCode));
    UniqueKeysOf(PreviewCode);
  }

  /* ---------------- page state ---------------- */

  /** The page's hook state. */
  class FragmentsPage {
    var selected: string
    var dark: bool
    var rootDark: bool
    var open: bool
    var value: string
    var searchTerm: string

    /** The combobox value is empty or one of the frameworks' values. */
    ghost predicate Valid()
      reads this
    {
      value == "" || exists j :: 0 <= j < |Frameworks| && Frameworks[j].value == value
    }

    function Theme(): DarkMode.Theme
      reads this
    {
      DarkMode.Theme(dark, rootDark)
    }

    /** The rows the table shows: `filteredData`. */
    function FilteredData(): seq<Row>
      reads this
    {
      Search(TableData, searchTerm)
    }

    /** Mounting the page; the document's "dark" class is whatever it was before. */
    constructor (rootDark0: bool)
      ensures selected == "combobox" && !dark && rootDark == rootDark0
      ensures !open && value == "" && searchTerm == ""
      ensures Valid()
    {
      selected, dark, rootDark := "combobox", false, rootDark0;
      open, value, searchTerm := false, "", "";
    }

    /** `handlePreviewClick(key)`, and the panel's `onSelect`: any key is accepted. */
    method PreviewClick(key: string)
      modifies this`selected
      ensures selected == key
    {
      selected := key;
    }

    /** `toggleDark`. */
    method ToggleDark()
      modifies this`dark, this`rootDark
      ensures Theme() == DarkMode.Toggle(old(Theme()))
    {
      var next := !dark;
      rootDark := next;
      dark := next;
    }

    /** The popover's `onOpenChange`. */
    method SetOpen(o: bool)
      modifies this`open
      ensures open == o
    {
      open := o;
    }

    /** A framework item's `onSelect`: toggle the value and close the popover. */
    method ChooseFramework(i: nat)
      requires i < |Frameworks| && Valid()
      modifies this`value, this`open
      ensures value == Chosen(old(value), Frameworks[i].value) && !open && Valid()
    {
      value := if Frameworks[i].value == value then "" else Frameworks[i].value;
      open := false;
    }

    /** The search input's `onChange`. */
    method SetSearchTerm(term: string)
      modifies this`searchTerm
      ensures searchTerm == term
    {
      searchTerm := term;
    }
  }
}
