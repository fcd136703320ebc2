# Verified model of the widget showcase's page logic

The showcase is a React application that demonstrates UI widgets. Each demo page shows live previews on the left and a side panel on the right. The panel documents the selected widget's props and offers its usage snippet with a "Copy Code" button. Almost all of it is markup. This project models the three pieces that are logic, in Dafny, and proves what they promise:

- **The fragments page** (`Fragments-demo.tsx`):
  - the table search: a stable, non-destructive filter over five fixed records that keeps a record when its lower-cased name or e-mail includes the lower-cased term;
  - the framework combobox, where choosing the current choice clears it;
  - the dark toggle;
  - the page's hook state, as a class.
- **The data-display page** (`Data-display-demo.tsx`):
  - saturating Previous/Next pagination over ten pages;
  - the row of at most five numbered page buttons and when its buttons are disabled;
  - the preview cards that select a widget;
  - the page's hook state, as a class.
- **The catalogue side panels** (the six `*-panel.tsx` files):
  - two registries written as object literals, with props rows and snippets per key;
  - the selector buttons over `Object.keys`;
  - lookups with the panel's own fallback: `||`, `??` or none;
  - the "Copied!" flag.

  Every copy sets the flag and schedules its own reset, and no reset is ever cancelled. Time is a sequence of explicit events. The resets still to fire form a FIFO queue.

Modules:

- `Wrappers`: `Option`.
- `Catalogue`: the registry pattern shared by all panels, and JavaScript's `||`, `??`, React's rendering of `undefined` and the DOMString conversion.
- `CopyFeedback`: the copy indicator as a specification over event traces, and as the class `CopyButton`.
- `TextSearch`: `toLowerCase` and `includes`.
- `ArrayFilter`: `Array.prototype.filter`.
- `DarkMode`: the dark toggle.
- `FragmentsDemo`, `DataDisplayDemo`: the two pages.
- One module per panel.

The registries are transcribed in full, every prop row and every snippet, as string literals.

## Model

| member | source | states |
|---|---|---|
| Catalogue.Keys | src/components/demos/data-display-panel.tsx:186 | the member names in declaration order, one per member: `Object.keys` for literals with distinct, non-numeric names, which every registry here is |
| Catalogue.Get | src/components/demos/data-display-panel.tsx:189 | `r[k]` is defined exactly when `k` is a member name, and then it is a value declared under `k` |
| Catalogue.GetFrom | src/components/demos/data-display-panel.tsx:189 | the property search from member `i` on finds a value exactly when some later member has the name |
| Catalogue.UniqueKeysOf | src/components/demos/data-display-panel.tsx:12-79 | an object literal whose member names are distinct has unique keys |
| Catalogue.GetDeclared | src/components/demos/data-display-panel.tsx:189 | with unique keys, `r[k]` is exactly the value declared under `k` |
| Catalogue.LookupWithFallback | src/components/demos/data-display-panel.tsx:235 | over non-empty snippets `r[k] \|\| d` equals `r[k] ?? d`: the declared snippet, or `d` for a missing key |
| Catalogue.RowsFor | src/components/demos/data-display-panel.tsx:219 | `propsData[k]?.map(...)` lists no rows for an unknown key, else the rows declared under `k` |
| Catalogue.OrElse | src/components/demos/data-display-panel.tsx:189 | `a \|\| d` on a string or `undefined`: `d` for `undefined` and for ""; proved equal to `??` over non-empty snippets in `LookupWithFallback` |
| Catalogue.Coalesce | src/pages/props-panel.tsx:75 | `a ?? d`: `d` only for `undefined`; its use is proved in `SidebarPropsPanel.CopyAndCodeArea` |
| Catalogue.Rendered | src/components/demos/form-panel.tsx:225 | React renders `{undefined}` as nothing; proved in `FormPanel.CopyAndCodeArea` |
| Catalogue.DomString | src/components/demos/dialog-panel.tsx:159 | a DOMString argument: `undefined` becomes "undefined"; proved in `DialogPanel.TooltipCopiesUndefined` |
| Catalogue.Selector | src/components/demos/data-display-panel.tsx:200-212 | one button per key, in order; each shows and selects its key and is highlighted exactly when the key is the selection |
| Catalogue.HighlightedButtons | src/components/demos/data-display-panel.tsx:200-212 | over distinct keys, exactly one button is highlighted when the selection is a key, none otherwise |
| CopyFeedback.StepsKeepConsistent | src/components/demos/data-display-panel.tsx:188-192 | copy and reset keep the indicator on only while a reset is pending, with distinct resets in scheduling order |
| CopyFeedback.AfterCopy | src/components/demos/data-display-panel.tsx:190-191 | `setCopied(true)` plus one more scheduled reset; kept consistent by `StepsKeepConsistent` |
| CopyFeedback.AfterReset | src/components/demos/data-display-panel.tsx:191 | the oldest timer fires `setCopied(false)`; kept consistent by `StepsKeepConsistent` |
| CopyFeedback.RunConsistent | src/components/demos/data-display-panel.tsx:188-192 | every run of copies and resets from a consistent state ends consistent |
| CopyFeedback.CopiedIffLastEventIsCopy | src/components/demos/data-display-panel.tsx:190-191 | after any events the indicator is on exactly when the last event was a copy: any reset turns it off, even an older copy's |
| CopyFeedback.ResetsFireInCopyOrder | src/components/demos/data-display-panel.tsx:191 | no reset is dropped or reordered: fired resets, then pending ones, are the initial ones plus one per copy in copy order |
| CopyFeedback.SecondCopyDoesNotRestartTimer | src/components/demos/data-display-panel.tsx:188-192 | copy, copy, reset ends with the indicator off while the second copy's reset is still pending |
| CopyFeedback.CopyButton.constructor | src/components/demos/data-display-panel.tsx:185 | the indicator starts off with no timer pending |
| CopyFeedback.CopyButton.Copy | src/components/demos/data-display-panel.tsx:190-191 | sets `copied` and appends one reset to the queue, whatever the clipboard write does |
| CopyFeedback.CopyButton.FireReset | src/components/demos/data-display-panel.tsx:191 | the oldest pending reset fires and clears `copied` |
| TextSearch.ToLower | src/pages/demos/Fragments-demo.tsx:92-93 | `toLowerCase` keeps the length and lower-cases each ASCII capital, leaving other characters alone |
| TextSearch.LowerChar | src/pages/demos/Fragments-demo.tsx:92-93 | lower-cases one ASCII capital and leaves other characters alone |
| TextSearch.ToLowerIdempotent | src/pages/demos/Fragments-demo.tsx:92-93 | lower-casing twice is lower-casing once |
| TextSearch.IncludesFrom | src/pages/demos/Fragments-demo.tsx:92-93 | the scan behind `includes`; its meaning is `IncludesFromMeaning` |
| TextSearch.MatchesAt | src/pages/demos/Fragments-demo.tsx:92-93 | the character comparison at one position; its meaning is `MatchesAtMeaning` |
| TextSearch.MissingCharExcludes | src/pages/demos/Fragments-demo.tsx:92-93 | a string lacking a character of `t` does not include `t` |
| TextSearch.Includes | src/pages/demos/Fragments-demo.tsx:92-93 | `s.includes(t)` holds exactly when `t` occurs in `s` at some position |
| TextSearch.MatchesAtMeaning | src/pages/demos/Fragments-demo.tsx:92-93 | the character-by-character comparison agrees with slice equality |
| TextSearch.IncludesFromMeaning | src/pages/demos/Fragments-demo.tsx:92-93 | the scan from position `i` finds exactly the occurrences at `i` or later |
| TextSearch.IncludedCharsOccur | src/pages/demos/Fragments-demo.tsx:92-93 | every character of an included string occurs in the including one |
| TextSearch.IncludesPastHead | src/pages/demos/Fragments-demo.tsx:92-93 | when `t` does not start `s`, `s` includes `t` exactly when `s` without its head does |
| ArrayFilter.Filter | src/pages/demos/Fragments-demo.tsx:91-94 | `xs.filter(p)`: no longer than `xs`, and every kept element is accepted; membership, order and counts are the lemmas below |
| ArrayFilter.FilterMembers | src/pages/demos/Fragments-demo.tsx:91-94 | `filter` keeps exactly the accepted elements |
| ArrayFilter.FilterIsSubsequence | src/pages/demos/Fragments-demo.tsx:91-94 | the kept elements stay in their original order |
| ArrayFilter.FilterCounts | src/pages/demos/Fragments-demo.tsx:91-94 | each accepted element is kept as often as it occurs, any other never |
| ArrayFilter.FilterConcat | src/pages/demos/Fragments-demo.tsx:91-94 | filtering distributes over concatenation |
| ArrayFilter.FilterIdempotent | src/pages/demos/Fragments-demo.tsx:91-94 | filtering the result again changes nothing |
| ArrayFilter.FilterAgrees | src/pages/demos/Fragments-demo.tsx:91-94 | callbacks that agree on every element keep the same elements |
| ArrayFilter.FilterKeepsAll | src/pages/demos/Fragments-demo.tsx:91-94 | a callback accepting every element keeps the whole array |
| ArrayFilter.FilterKeepsNone | src/pages/demos/Fragments-demo.tsx:91-94 | a callback accepting no element keeps nothing |
| ArrayFilter.FilterKeepsOne | src/pages/demos/Fragments-demo.tsx:91-94 | a callback accepting exactly one element keeps it alone |
| ArrayFilter.FilterKeepsPrefix | src/pages/demos/Data-display-demo.tsx:332-336 | a callback accepting a prefix and nothing after it keeps that prefix |
| ArrayFilter.FilterEmptyIffNoneAccepted | src/pages/demos/Fragments-demo.tsx:91-94 | the result is empty exactly when no element is accepted |
| DarkMode.Toggle | src/pages/demos/Fragments-demo.tsx:210-216 | `toggleDark`: flips `dark` and sets the root class to the new value; proved in `ToggleTwice` |
| DarkMode.ToggleTwice | src/pages/demos/Fragments-demo.tsx:210-216 | a toggle flips `dark` and sets the root class to the new value; two toggles restore both when they agreed |
| FragmentsDemo.Matches | src/pages/demos/Fragments-demo.tsx:92-93 | the filter callback: the lower-cased name or e-mail includes the lower-cased term |
| FragmentsDemo.Search | src/pages/demos/Fragments-demo.tsx:91-94 | `filteredData` for a term; its meaning is `SearchKeepsMatches` |
| FragmentsDemo.Body | src/pages/demos/Fragments-demo.tsx:450-472 | the table body: the filtered rows, or the "No results found" row; proved in `NoResultsIffNoMatch` |
| FragmentsDemo.SearchKeepsMatches | src/pages/demos/Fragments-demo.tsx:91-94 | the filtered list holds exactly the records whose lower-cased name or e-mail includes the lower-cased term, in table order |
| FragmentsDemo.EmptyTermKeepsAll | src/pages/demos/Fragments-demo.tsx:91-94 | the empty term keeps every record |
| FragmentsDemo.SearchIgnoresCase | src/pages/demos/Fragments-demo.tsx:92-93 | searching for a term and for its lower-cased form give the same rows |
| FragmentsDemo.SearchIdempotent | src/pages/demos/Fragments-demo.tsx:91-94 | searching the result again with the same term changes nothing |
| FragmentsDemo.NoResultsIffNoMatch | src/pages/demos/Fragments-demo.tsx:450-472 | "No results found" shows exactly when no record matches; otherwise the body holds the filtered rows the badge counts |
| FragmentsDemo.EmptySearchShowsAll | src/pages/demos/Fragments-demo.tsx:64-94 | the initial empty search shows all five records |
| FragmentsDemo.JohnJane | src/pages/demos/Fragments-demo.tsx:65 | John Doe does not match "jane" in name or e-mail |
| FragmentsDemo.JohnAdmin | src/pages/demos/Fragments-demo.tsx:65 | John Doe does not match "admin", though the record's role is Admin |
| FragmentsDemo.JaneJane | src/pages/demos/Fragments-demo.tsx:66 | Jane Smith matches "jane": the lower-cased name starts with it |
| FragmentsDemo.JaneAdmin | src/pages/demos/Fragments-demo.tsx:66 | Jane Smith does not match "admin" |
| FragmentsDemo.BobJane | src/pages/demos/Fragments-demo.tsx:67 | Bob Johnson does not match "jane" in name or e-mail |
| FragmentsDemo.BobAdmin | src/pages/demos/Fragments-demo.tsx:67 | Bob Johnson does not match "admin" |
| FragmentsDemo.AliceJane | src/pages/demos/Fragments-demo.tsx:68 | Alice Brown does not match "jane" in name or e-mail |
| FragmentsDemo.AliceAdmin | src/pages/demos/Fragments-demo.tsx:68 | Alice Brown does not match "admin" |
| FragmentsDemo.CharlieJane | src/pages/demos/Fragments-demo.tsx:69 | Charlie Wilson does not match "jane" in name or e-mail |
| FragmentsDemo.CharlieAdmin | src/pages/demos/Fragments-demo.tsx:69 | Charlie Wilson does not match "admin", though the record's role is Admin |
| FragmentsDemo.JaneMatchesOneRecord | src/pages/demos/Fragments-demo.tsx:64-94 | "jane" matches Jane Smith and no other record |
| FragmentsDemo.JaneOnly | src/pages/demos/Fragments-demo.tsx:64-94 | "jane" and "JANE" both keep Jane Smith alone |
| FragmentsDemo.AdminMatchesNoRow | src/pages/demos/Fragments-demo.tsx:64-94 | "admin" keeps no record, though two records have the role Admin: roles are not searched |
| FragmentsDemo.Chosen | src/pages/demos/Fragments-demo.tsx:317 | `currentValue === value ? "" : currentValue`; proved in `ChooseAgainClears` |
| FragmentsDemo.ChooseAgainClears | src/pages/demos/Fragments-demo.tsx:316-319 | choosing another framework selects it; choosing the selected one clears the value |
| FragmentsDemo.FindCaption | src/pages/demos/Fragments-demo.tsx:302 | `frameworks.find(...)?.label` is defined exactly when some framework has the value, and is that framework's caption |
| FragmentsDemo.TriggerText | src/pages/demos/Fragments-demo.tsx:301-303 | the trigger's caption, or "Select framework..." when nothing is chosen; proved in `TriggerAfterChoice` |
| FragmentsDemo.TriggerAfterChoice | src/pages/demos/Fragments-demo.tsx:301-303 | after a choice the trigger shows the chosen caption, or the prompt when the choice cleared the value |
| FragmentsDemo.EverySelectableKeyHasSnippet | src/pages/demos/Fragments-demo.tsx:96-208 | every selector key and preview key has a non-empty snippet, which is both shown and copied |
| FragmentsDemo.SnippetRegistry | src/pages/demos/Fragments-demo.tsx:96-208 | the page's snippets cover the six fragments in order, with unique keys and none empty |
| FragmentsDemo.FragmentsPage.constructor | src/pages/demos/Fragments-demo.tsx:73-90 | the page mounts with "combobox" selected, light mode, the popover closed, no framework and an empty search |
| FragmentsDemo.FragmentsPage.FilteredData | src/pages/demos/Fragments-demo.tsx:91-94 | `filteredData` for the current search term, via `Search` |
| FragmentsDemo.FragmentsPage.PreviewClick | src/pages/demos/Fragments-demo.tsx:218 | a preview click sets the selection and nothing else |
| FragmentsDemo.FragmentsPage.ToggleDark | src/pages/demos/Fragments-demo.tsx:210-216 | the flag and the root class follow `DarkMode.Toggle` |
| FragmentsDemo.FragmentsPage.SetOpen | src/pages/demos/Fragments-demo.tsx:292 | the popover's open state is set and nothing else |
| FragmentsDemo.FragmentsPage.ChooseFramework | src/pages/demos/Fragments-demo.tsx:316-319 | the value toggles as `Chosen` says, the popover closes, and the value stays empty or a framework |
| FragmentsDemo.FragmentsPage.SetSearchTerm | src/pages/demos/Fragments-demo.tsx:434 | the search term is set and nothing else |
| FragmentsPanel.Items | src/components/demos/fragments-panel.tsx:64 | the selector's keys, `Object.keys(propsData)`; listed by `ItemOrder` |
| FragmentsPanel.CopyText | src/components/demos/fragments-panel.tsx:67 | `previewCode[selected] \|\| ""`; proved in `CopyAndCodeArea` |
| FragmentsPanel.CodeArea | src/components/demos/fragments-panel.tsx:113 | `previewCode[selected] \|\| "// No code example available"`; proved in `CopyAndCodeArea` |
| FragmentsPanel.PropRows | src/components/demos/fragments-panel.tsx:97 | the props list for the selection, via `Catalogue.RowsFor`; proved in `UnknownKeyHasNoRows` |
| FragmentsPanel.Buttons | src/components/demos/fragments-panel.tsx:78-88 | the selector buttons, via `Catalogue.Selector`; proved in `SelectorHighlightsSelection` |
| FragmentsPanel.ItemOrder | src/components/demos/fragments-panel.tsx:12-64 | the selector offers combobox, datatable, breadcrumbs, toggle, togglegroup, resizable, in that order, distinct |
| FragmentsPanel.UnknownKeyHasNoRows | src/components/demos/fragments-panel.tsx:97 | a key without props documentation lists no rows |
| FragmentsPanel.CopyAndCodeArea | src/components/demos/fragments-panel.tsx:67-113 | for any registry with unique keys: a missing key copies "" and shows the placeholder; a key with a non-empty snippet copies and shows it; `\|\|` treats an empty snippet as missing |
| FragmentsPanel.CopyCode | src/components/demos/fragments-panel.tsx:66-70 | writes `previewCode[selected] \|\| ""`, sets `copied` and queues one reset |
| FragmentsPanel.SelectorHighlightsSelection | src/components/demos/fragments-panel.tsx:78-88 | exactly one button is highlighted when the selection is a fragment, none otherwise; each selects its own key |
| DataDisplayDemo.PrevPage | src/pages/demos/Data-display-demo.tsx:68-70 | Previous goes one page back and never below 1 |
| DataDisplayDemo.NextPage | src/pages/demos/Data-display-demo.tsx:72-74 | Next goes one page on and never past the last page |
| DataDisplayDemo.PrevNextInverse | src/pages/demos/Data-display-demo.tsx:68-74 | both moves stay in range, and each undoes the other where it is not saturated |
| DataDisplayDemo.PrevDisabled | src/pages/demos/Data-display-demo.tsx:326 | `disabled={currentPage === 1}`; proved in `DisabledExactlyWhenNoEffect` |
| DataDisplayDemo.NextDisabled | src/pages/demos/Data-display-demo.tsx:358 | `disabled={currentPage === totalPages}`; proved in `DisabledExactlyWhenNoEffect` |
| DataDisplayDemo.DisabledExactlyWhenNoEffect | src/pages/demos/Data-display-demo.tsx:326-358 | Previous is disabled exactly when it would not move, and Next likewise |
| DataDisplayDemo.SlotPage | src/pages/demos/Data-display-demo.tsx:333 | the page number of slot `i`; its shape is `WindowShape` |
| DataDisplayDemo.Slots | src/pages/demos/Data-display-demo.tsx:332 | there are `min(5, totalPages)` button slots |
| DataDisplayDemo.InRange | src/pages/demos/Data-display-demo.tsx:334 | the slot test `pageNum > totalPages` that drops a slot |
| DataDisplayDemo.Window | src/pages/demos/Data-display-demo.tsx:332-336 | the numbered buttons: the slots whose page exists, in slot order; its shape is `WindowShape` |
| DataDisplayDemo.WindowShape | src/pages/demos/Data-display-demo.tsx:332-336 | the window holds consecutive pages from 1, or from `currentPage - 2`; at most `min(5, total)` of them, cut at the last page, all in range, including the current page |
| DataDisplayDemo.WindowAtStart | src/pages/demos/Data-display-demo.tsx:332-336 | pages 1 to 3 show pages 1 to 5 |
| DataDisplayDemo.WindowCentred | src/pages/demos/Data-display-demo.tsx:332-336 | pages 4 to 8 show two pages on either side |
| DataDisplayDemo.WindowAtPage9 | src/pages/demos/Data-display-demo.tsx:332-336 | page 9 shows 7 to 10: the window shrinks rather than shifting left |
| DataDisplayDemo.WindowAtPage10 | src/pages/demos/Data-display-demo.tsx:332-336 | page 10 shows 8 to 10 |
| DataDisplayDemo.AfterClick | src/pages/demos/Data-display-demo.tsx:319-360 | the page after a Previous, Next or number click |
| DataDisplayDemo.AfterClicks | src/pages/demos/Data-display-demo.tsx:319-360 | the page after a run of clicks; proved in range by `ClicksStayInRange` |
| DataDisplayDemo.ClicksStayInRange | src/pages/demos/Data-display-demo.tsx:319-360 | from a page in range, any run of Previous, Next and shown-number clicks ends in range |
| DataDisplayDemo.PreviewKeysAreSnippetKeys | src/pages/demos/Data-display-demo.tsx:101-135 | "Total Sales" and "Conversion Rate" both select "cards"; every preview selects a key with a snippet |
| DataDisplayDemo.PreviewKeysHaveSnippets | src/components/demos/data-display-panel.tsx:189-235 | after any preview click the panel copies a non-empty snippet and shows that same snippet |
| DataDisplayDemo.DataDisplayPage.constructor | src/pages/demos/Data-display-demo.tsx:45-54 | the page mounts on "cards", light mode, page 1 |
| DataDisplayDemo.DataDisplayPage.PageButtons | src/pages/demos/Data-display-demo.tsx:332-336 | the numbered buttons for the current page, via `Window` |
| DataDisplayDemo.DataDisplayPage.PreviewClick | src/pages/demos/Data-display-demo.tsx:66 | a preview click or a panel selection sets the selection and nothing else |
| DataDisplayDemo.DataDisplayPage.CardClick | src/pages/demos/Data-display-demo.tsx:101-135 | a preview card sets the selection to its key and nothing else |
| DataDisplayDemo.DataDisplayPage.ToggleDark | src/pages/demos/Data-display-demo.tsx:58-64 | the flag and the root class follow `DarkMode.Toggle` |
| DataDisplayDemo.DataDisplayPage.PreviousClick | src/pages/demos/Data-display-demo.tsx:319-328 | the page becomes `PrevPage` of the old one and stays in 1..10; the selection is untouched |
| DataDisplayDemo.DataDisplayPage.NextClick | src/pages/demos/Data-display-demo.tsx:351-360 | the page becomes `NextPage` of the old one and stays in 1..10; the selection is untouched |
| DataDisplayDemo.DataDisplayPage.NumberClick | src/pages/demos/Data-display-demo.tsx:336-345 | a shown page number becomes the current page, which stays in 1..10 |
| DataDisplayPanel.Items | src/components/demos/data-display-panel.tsx:186 | the selector's keys, `Object.keys(propsData)`; listed by `ItemOrder` |
| DataDisplayPanel.CopyText | src/components/demos/data-display-panel.tsx:189 | `previewCode[selected] \|\| ""`; proved in `CopyAndCodeArea` |
| DataDisplayPanel.CodeArea | src/components/demos/data-display-panel.tsx:235 | `previewCode[selected] \|\| "// No code example available"`; proved in `CopyAndCodeArea` |
| DataDisplayPanel.PropRows | src/components/demos/data-display-panel.tsx:219 | the props list for the selection, via `Catalogue.RowsFor`; proved in `UnknownKeyHasNoRows` |
| DataDisplayPanel.Buttons | src/components/demos/data-display-panel.tsx:200-212 | the selector buttons, via `Catalogue.Selector`; proved in `SelectorHighlightsSelection` |
| DataDisplayPanel.ItemOrder | src/components/demos/data-display-panel.tsx:12-79 | the selector offers the twelve widgets in declaration order, distinct |
| DataDisplayPanel.SnippetRegistry | src/components/demos/data-display-panel.tsx:81-182 | eleven snippets, in order, unique and none empty |
| DataDisplayPanel.SnippetCoverage | src/components/demos/data-display-panel.tsx:12-182 | every widget but "calendar" has a snippet, and every snippet belongs to a widget |
| DataDisplayPanel.CopyAndCodeArea | src/components/demos/data-display-panel.tsx:189-235 | a key without a snippet copies "" and shows the placeholder; a key with one copies and shows it |
| DataDisplayPanel.CalendarHasNoSnippet | src/components/demos/data-display-panel.tsx:65-72 | "calendar" is offered and lists six prop rows, but copies "" and shows the placeholder |
| DataDisplayPanel.UnknownKeyHasNoRows | src/components/demos/data-display-panel.tsx:219 | a key without props documentation lists no rows |
| DataDisplayPanel.CopyCode | src/components/demos/data-display-panel.tsx:188-192 | writes `previewCode[selected] \|\| ""`, sets `copied` and queues one reset |
| DataDisplayPanel.SelectorHighlightsSelection | src/components/demos/data-display-panel.tsx:200-212 | exactly one button is highlighted when the selection is a widget, none otherwise; each selects its own key |
| ButtonPanel.Items | src/components/demos/button-panel.tsx:41 | the selector's keys, `Object.keys(propsData)`; listed by `ItemOrder` |
| ButtonPanel.CopyText | src/components/demos/button-panel.tsx:44 | `previewCode[selected] \|\| ""`; proved in `CopyAndCodeArea` |
| ButtonPanel.CodeArea | src/components/demos/button-panel.tsx:90 | `previewCode[selected] \|\| "// No code example available"`; proved in `CopyAndCodeArea` |
| ButtonPanel.PropRows | src/components/demos/button-panel.tsx:74 | the props list for the selection, via `Catalogue.RowsFor`; proved in `UnknownKeyHasNoRows` |
| ButtonPanel.Buttons | src/components/demos/button-panel.tsx:55-67 | the selector buttons, via `Catalogue.Selector`; proved in `SelectorHighlightsSelection` |
| ButtonPanel.ItemOrder | src/components/demos/button-panel.tsx:12-41 | the selector offers variants, sizes, states, icons, events, in that order, distinct |
| ButtonPanel.DemoRegistryMatchesItems | src/pages/demos/buttondemo.tsx:13-99 | the button page's snippet keys are the selector keys in the same order, with no empty snippet |
| ButtonPanel.UnknownKeyHasNoRows | src/components/demos/button-panel.tsx:74 | a key without props documentation lists no rows |
| ButtonPanel.CopyAndCodeArea | src/components/demos/button-panel.tsx:44-90 | for any registry with unique keys: a missing key copies "" and shows the placeholder; a key with a non-empty snippet copies and shows it; `\|\|` treats an empty snippet as missing |
| ButtonPanel.EveryItemHasSnippet | src/pages/demos/buttondemo.tsx:13-99 | with the button page's registry every selector key copies and shows its own snippet |
| ButtonPanel.CopyCode | src/components/demos/button-panel.tsx:43-47 | writes `previewCode[selected] \|\| ""`, sets `copied` and queues one reset |
| ButtonPanel.SelectorHighlightsSelection | src/components/demos/button-panel.tsx:55-67 | exactly one button is highlighted when the selection is a group, none otherwise; each selects its own key |
| FormPanel.Items | src/components/demos/form-panel.tsx:176 | the selector's keys, `Object.keys(propsData)`; listed by `ItemOrder` |
| FormPanel.CopyText | src/components/demos/form-panel.tsx:179 | `previewCode[selected]` with no fallback, "undefined" for a missing key; proved in `CopyAndCodeArea` |
| FormPanel.CodeArea | src/components/demos/form-panel.tsx:225 | `{previewCode[selected]}`, empty for a missing key; proved in `CopyAndCodeArea` |
| FormPanel.PropRows | src/components/demos/form-panel.tsx:209 | the props list for the selection, via `Catalogue.RowsFor`; proved in `UnknownKeyHasNoRows` |
| FormPanel.Buttons | src/components/demos/form-panel.tsx:190-200 | the selector buttons, via `Catalogue.Selector`; proved in `SelectorHighlightsSelection` |
| FormPanel.ItemOrder | src/components/demos/form-panel.tsx:11-57 | the selector offers Input, Textarea, Select, Radio, Checkbox, Switch, Calendar, in that order, distinct |
| FormPanel.SnippetRegistry | src/components/demos/form-panel.tsx:59-172 | seven snippets with unique keys, in their declaration order |
| FormPanel.SameKeySets | src/components/demos/form-panel.tsx:11-172 | every documented control has a snippet and every snippet is documented |
| FormPanel.CopyAndCodeArea | src/components/demos/form-panel.tsx:179-225 | a key with a snippet copies and shows it; a key without one shows nothing and copies "undefined" |
| FormPanel.DemoSelectsItems | src/pages/demos/Form-demo.tsx:16-229 | every key the form page selects is a documented control |
| FormPanel.ItemsCopyWhatIsShown | src/components/demos/form-panel.tsx:176-225 | for every selector key the missing fallback never matters: copy writes what the code area shows |
| FormPanel.UnknownKeyHasNoRows | src/components/demos/form-panel.tsx:209 | a key without props documentation lists no rows |
| FormPanel.CopyCode | src/components/demos/form-panel.tsx:178-182 | writes `previewCode[selected]` as it is, sets `copied` and queues one reset |
| FormPanel.SelectorHighlightsSelection | src/components/demos/form-panel.tsx:190-200 | exactly one button is highlighted when the selection is a control, none otherwise; each selects its own key |
| DialogPanel.Items | src/components/demos/dialog-panel.tsx:156 | the selector's keys, `Object.keys(propsData)`; listed by `ItemOrder` |
| DialogPanel.CopyText | src/components/demos/dialog-panel.tsx:145 | the intended `previewCode[selected] ?? ""`; proved in `CopyWritesWhatIsShown` |
| DialogPanel.CodeArea | src/components/demos/dialog-panel.tsx:205 | `{previewCode[selected]}`, empty for a missing key; proved in `CopyWritesWhatIsShown` |
| DialogPanel.PropRows | src/components/demos/dialog-panel.tsx:189 | the props list for the selection, via `Catalogue.RowsFor`; proved in `UnknownKeyHasNoRows` |
| DialogPanel.Buttons | src/components/demos/dialog-panel.tsx:170-182 | the selector buttons, via `Catalogue.Selector`; proved in `SelectorHighlightsSelection` |
| DialogPanel.CopyTextAsWritten | src/components/demos/dialog-panel.tsx:159 | `writeText(previewCode[selected])`: "undefined" for a missing key; proved in `TooltipCopiesUndefined` |
| DialogPanel.ItemOrder | src/components/demos/dialog-panel.tsx:12-39 | the selector offers Dialog, Popover, AlertDialog, Toast, HoverCard, in that order, distinct |
| DialogPanel.SnippetRegistry | src/components/demos/dialog-panel.tsx:47-101 | the snippet keys are exactly the selector keys, in order, unique |
| DialogPanel.KnownKeyCopiesSnippet | src/components/demos/dialog-panel.tsx:159-205 | a key with a snippet copies and shows exactly that snippet |
| DialogPanel.TooltipCopiesUndefined | src/pages/demos/Dialog-demo.tsx:216 | "Tooltip" can be selected but is in neither registry: no rows and an empty code area, yet the code as written copies "undefined" |
| DialogPanel.CopyWritesWhatIsShown | src/components/demos/dialog-panel.tsx:159-205 | with `?? ""` copy writes exactly what the code area shows, for every key, and agrees with the code as written wherever a snippet exists |
| DialogPanel.UnknownKeyHasNoRows | src/components/demos/dialog-panel.tsx:189 | a key without props documentation lists no rows |
| DialogPanel.CopyCode | src/components/demos/dialog-panel.tsx:158-162 | writes `previewCode[selected]` as the code stands, "undefined" for a key without a snippet; sets `copied` and queues one reset |
| DialogPanel.CopyCodeCorrected | src/components/demos/dialog-panel.tsx:145 | with the intended `?? ""` copy writes exactly what the code area shows; sets `copied` and queues one reset |
| DialogPanel.SelectorHighlightsSelection | src/components/demos/dialog-panel.tsx:170-182 | exactly one button is highlighted when the selection is an overlay, none otherwise; each selects its own key |
| SidebarPropsPanel.Items | src/pages/props-panel.tsx:37 | the selector's keys, `Object.keys(propsData)`; listed by `ItemOrder` |
| SidebarPropsPanel.CopyText | src/pages/props-panel.tsx:79 | `previewCode[selected] ?? ""`; proved in `CopyAndCodeArea` |
| SidebarPropsPanel.CodeArea | src/pages/props-panel.tsx:75 | `previewCode[selected] ?? "// Select a component to see example code"`; proved in `CopyAndCodeArea` |
| SidebarPropsPanel.PropRows | src/pages/props-panel.tsx:60 | the props list for the selection, via `Catalogue.RowsFor`; proved in `UnknownKeyHasNoRows` |
| SidebarPropsPanel.Render | src/pages/props-panel.tsx:44-79 | what the panel shows and copies for given props: buttons, rows, code area and copy text |
| SidebarPropsPanel.ItemOrder | src/pages/props-panel.tsx:10-37 | the selector offers Collapsible, Accordion, Popover, Sheet, Dialog, in that order, distinct |
| SidebarPropsPanel.DemoRegistry | src/pages/demos/Sidebar-demo.tsx:27-46 | the sidebar page passes snippets for Sidebar, Sheet, Accordion, Collapsible, with unique keys |
| SidebarPropsPanel.CopyAndCodeArea | src/pages/props-panel.tsx:75-79 | for any registry with unique keys: a missing key copies "" and shows the prompt; a present key copies and shows its snippet, even an empty one |
| SidebarPropsPanel.InitialSelection | src/pages/demos/Sidebar-demo.tsx:25-28 | the initial "Sidebar" is not documented, so no rows show, yet its snippet is shown and copied |
| SidebarPropsPanel.PopoverAndDialogFallBack | src/pages/props-panel.tsx:75-79 | Popover and Dialog are offered but have no snippet: the prompt shows and "" is copied |
| SidebarPropsPanel.SelectorHighlightsSelection | src/pages/props-panel.tsx:44-52 | exactly one button is highlighted when the selection is documented, none for "Sidebar"; each selects its own key |

## Left out

- Markup, styling and layout are not modelled: JSX, Tailwind classes and the `showProps` visibility toggles. They are presentation.
- Third-party widgets are not modelled: Radix/shadcn components, Embla, Recharts, react-hook-form, sonner and framer-motion. Only the callbacks the pages pass to them are modelled.
- The clipboard is not modelled. Its write is an output value of `CopyCode`. Its promise is never awaited or checked. The model assumes `navigator.clipboard` exists: where it is undefined, `writeText` throws before `setCopied(true)` (src/components/demos/data-display-panel.tsx:189-190, and likewise in every panel), and the flag never turns on.
- Real time is not modelled. `setTimeout(..., 2000)` is a reset queued by each copy and fired by an explicit `FireReset` event. All delays are equal, so resets fire in scheduling order.
- Timer cancellation is not modelled, because the code has none: no panel keeps or clears its timer, so a second copy does not restart the first copy's reset. `SecondCopyDoesNotRestartTimer` shows the consequence.
- TextSearch.ToLower: lower-casing covers ASCII capitals only. The five records are ASCII. A search term may hold other characters, and the model leaves their capitals as they are where `toLowerCase` lowers them. The only such capitals that lower to an ASCII letter are U+212A, which becomes "k", and U+0130, which becomes "i" followed by U+0307. No record contains "k" or U+0307, so the filtered rows are the same for every term.
- Catalogue.Keys: `Object.keys` lists integer-like names first and collapses repeated names. Every registry here has distinct, non-numeric names, so neither case arises.
- Catalogue.Get: keys inherited from `Object.prototype` (such as "constructor") are not members of any registry. No page or selector can select one.
- DataDisplayDemo.DataDisplayPage.PreviousClick: the model lets a disabled button be clicked. `DisabledExactlyWhenNoEffect` shows such a click would change nothing.
- Pages outside the core are not modelled: the router, the home and showcase pages, the header and the theme preset. Neither are the demo pages of the button, form, dialog and sidebar panels beyond the registries and selections they hand to their panels.
- The older props panel in `src/components/demos/` is not modelled: no page imports it.
- `buttondemo.tsx`'s simulated loading timer and Form-demo's `alert` on submit are left out as trivial.
- The document root's "dark" class is one boolean set with the flag. Other pages' class-only toggles are left out.

## Findings

| source | as written | input that shows it | evidently intended | confidence | as-written member | corrected member |
|---|---|---|---|---|---|---|
| src/components/demos/dialog-panel.tsx:159 | `copyCode` passes `previewCode[selected]` to `writeText` with no fallback | Dialog-demo selects "Tooltip" (src/pages/demos/Dialog-demo.tsx:216), which has no snippet. The DOMString conversion turns `undefined` into the text "undefined", and that text is copied while the code area is empty | copy what the code area shows, `previewCode[selected] ?? ""`, as the commented-out earlier version at line 145 does | medium, not executed | DialogPanel.TooltipCopiesUndefined | DialogPanel.CopyCodeCorrected |
