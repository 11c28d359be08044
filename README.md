# Job-listing card pages, modelled in Dafny

The repository is a static job-listing browser. It loads a JSON array of
job postings, gives every job a positional `id`, and shows the jobs as cards,
a page at a time. It filters them with per-property selects and remembers
in `localStorage` which cards were clicked. This project models five
iterations of that page:

- `_backup/modificadoscript.js`:
  - 100 cards per page;
  - the next page is appended when the user scrolls to the bottom;
  - one multi-select per property, whose options are the property's distinct
    values (a `Set`) sorted with `localeCompare`;
  - `"__select_all__"` selects every option;
  - "Sem novos cards" is shown past the last page.
- `assets/js/scripts.js`:
  - 50 cards per page, re-rendered from scratch;
  - the same selects, with the distinct values found by an `indexOf` test;
  - the filtered list is narrowed one property at a time in `for ... in`
    order.
- `_backup/jsgrid-config2backup1.js`:
  - 20 cards per page, rendered by an index loop;
  - ids are written into the loaded array in place;
  - a category select and a level select, each "Todos" (`""`) followed by the
    distinct values in order of first occurrence.
- `_backup/jsgrid-config.js`:
  - the jsGrid table's select items, built by `getUniqueItems`;
  - the controller's `loadData`. It upper-cases the values that do not read
    as numbers, then keeps the jobs whose ten columns all accept the filter
    row through `verifyIndex`.
- `_backup/script.js`:
  - 240 cards per page, no filtering;
  - a card shows title, level and category.

## How the model is built

JavaScript values are the datatype `Js.Value`: `undefined`, booleans,
integers and strings. A job is a map from property names to values; a missing
property reads as `undefined`. Expressions that may throw yield
`Outcome<T>`, which is `Ok(value)` or `TypeError`. `formatarData` throws on a
date that is not a string or that has fewer than two dashes. In a rendering
loop, such a throw stops the loop: the cards before it stay, and the click
listeners bound after the loop are never bound. The model keeps this as the
`threw` result. In `assets/js/scripts.js` and
`_backup/jsgrid-config2backup1.js` every rendering empties the container
first, so the field `clickable` tells whether the cards shown have their
listener. In `_backup/modificadoscript.js` pages are appended, and
`cardsContainer.find('.col-span-1').click(...)` binds the listener to every
card in the container, those of earlier pages included. The field `bound`
records, entry by entry, whether that entry has the listener. The
"Sem novos cards" message never has one. A click is modelled only on an entry
that has it. A card bound twice runs the same handler twice, and the second
run changes nothing, so `bound` is a flag rather than a count.

Some library calls rest on Unicode tables or number parsing:
`localeCompare`, `toUpperCase`, accent stripping, `isNaN` of a string, and a
number's loose `==` with a string. These are fields of `Js.Lib`, supplied by
the caller. The only law assumed of them is that `localeCompare` is a total
preorder (`Js.LocaleCompareIsPreorder`), and only the lemmas about sorting
require it. The clicked ids in `localStorage` are a `set<Value>` parameter.

The state of each page's closure is a class whose methods update its fields.
Each method is proved against specification functions:

- `Filtering.FilterJobs` for the multi-select filter;
- `Cards.RenderCards` for a card loop that may throw;
- `Paging.PageSlice` for a page;
- `Options.FilterValues` for an option list.

Lemmas state what the source promises about those functions.

`verifyIndex` in `_backup/jsgrid-config.js` returns `false`, and so passes,
when the job's value is `undefined` or the filter is `undefined` or `""`. An
empty job value `""` with a non-empty filter is not short-circuited: it goes
on to the substring test, as the code does.

## Model

| member | source | states |
|---|---|---|
| JsStrings.IndexOfFrom | _backup/jsgrid-config.js:78 | `indexOf` returns -1 exactly when the pattern occurs nowhere from the start position, else the first position where it occurs |
| JsStrings.IndexOfFindsSubstring | _backup/jsgrid-config.js:78 | `indexOf(...) != -1` holds exactly when the pattern is a substring; the empty pattern is found at 0 |
| JsStrings.Split | _backup/modificadoscript.js:37 | `split` on one character yields one part more than the separator occurs |
| JsStrings.SplitWithoutSeparator | _backup/modificadoscript.js:37 | a string without the separator splits into itself |
| JsStrings.SplitAtSeparator | _backup/modificadoscript.js:37 | splitting `a + sep + b` is splitting `a` and `b` apart |
| JsStrings.PadStart | _backup/modificadoscript.js:38 | `padStart(2, '0')` leaves a long enough string alone, otherwise pads it on the left to the length with `0` and keeps it as the suffix |
| JsArrays.Slice | _backup/modificadoscript.js:21 | `slice` never returns more elements than the array has |
| JsArrays.SliceNonNegative | _backup/modificadoscript.js:18-21 | with non-negative bounds, `slice` is the clamped range `[start, end)`, of length `max(0, min(end, len) - start)` |
| JsArrays.SliceElements | _backup/jsgrid-config2backup1.js:28-36 | element `j` of the slice is element `start + j` of the array, for `max(0, min(end, len) - start)` elements |
| JsArrays.Filter | _backup/modificadoscript.js:119 | `filter` returns no more elements than it is given |
| JsArrays.FilterMembers | _backup/modificadoscript.js:119-127 | everything `filter` returns comes from the array and passes the test |
| JsArrays.SubsequenceOfItself | _backup/modificadoscript.js:13 | the copy of the originals is a subsequence of them |
| JsArrays.SubsequenceLength | _backup/modificadoscript.js:119-127 | a subsequence is never longer than the array |
| JsArrays.FilterIsSubsequence | _backup/modificadoscript.js:119-127 | `filter` keeps the order of what it keeps |
| JsArrays.FilterCounts | _backup/modificadoscript.js:119-127 | `filter` keeps each passing element as often as it occurs and no other element |
| JsArrays.FilterKeepsAll | _backup/modificadoscript.js:126 | when every element passes, `filter` returns the whole array |
| JsArrays.FilterAgrees | assets/js/scripts.js:77-79 | two tests that agree on every element filter alike |
| JsArrays.FilterTwice | assets/js/scripts.js:74-81 | filtering by one test and then another is filtering once by both |
| JsArrays.NoDuplicatesCount | _backup/modificadoscript.js:215 | in an array without duplicates a value occurs at most once |
| JsArrays.PermutationKeepsNoDuplicates | _backup/modificadoscript.js:215 | reordering (sorting) an array without duplicates leaves it without duplicates |
| JsArrays.ArrayIndexOf | assets/js/scripts.js:135-137 | `indexOf` returns -1 exactly when the value is absent, else the first index holding it |
| JsArrays.IndexOfAtMost | assets/js/scripts.js:136 | `indexOf` finds a value no later than any position holding it |
| Paging.CeilDiv | _backup/modificadoscript.js:130 | `Math.ceil(n / d)` is the least count of pages of `d` that covers `n`, and 0 only for `n == 0` |
| Paging.PageSlice | _backup/modificadoscript.js:17-21 | `dadosFiltrados.slice((p-1)*size, (p-1)*size + size)`; its range and elements are stated by `PageSliceRange` and `PageElements` |
| Paging.PageSliceRange | _backup/modificadoscript.js:17-21 | page `p` is elements `[(p-1)*size, p*size)` clamped to the list, at most `size` of them |
| Paging.PageElements | assets/js/scripts.js:20-23 | page `p` has `max(0, min(p*size, len) - (p-1)*size)` elements, element `j` being list element `(p-1)*size + j` |
| Paging.PageEmptyIffPastEnd | _backup/modificadoscript.js:21-27 | a page is empty exactly when its number is past `totalLinks` |
| Paging.PagesArePrefix | _backup/modificadoscript.js:108-113 | pages 1 to `k` together are the first `k*size` elements, each once, in order |
| Paging.AllPagesShowWholeList | _backup/modificadoscript.js:130 | pages 1 to `totalLinks` together are the whole list |
| Options.Distinct | _backup/modificadoscript.js:215 | `[...new Set(values)]` has no duplicates and holds exactly the values given |
| Options.FirstIndexAfterAppend | _backup/jsgrid-config.js:7-9 | pushing a value leaves the first index of every value already present unchanged |
| Options.DistinctKeepsFirstOccurrenceOrder | _backup/modificadoscript.js:215 | the `Set` lists values in the order of their first occurrences |
| Options.FirstOccurrencesAreDistinct | assets/js/scripts.js:133-137 | keeping the elements at their first `indexOf` position over a prefix is the `Set` of that prefix |
| Options.KeepFirstOccurrences | assets/js/scripts.js:133-137 | `values.filter((value, index, self) => self.indexOf(value) === index)`; `KeepFirstOccurrencesIsDistinct` proves it equal to the `Set` |
| Options.KeepFirstOccurrencesIsDistinct | assets/js/scripts.js:133-137 | the `indexOf === index` filter gives the same list as a `Set` |
| Options.Insert | _backup/modificadoscript.js:215 | one insertion step of the sort adds the element and loses none |
| Options.Sort | _backup/modificadoscript.js:215 | `sort` returns a permutation of its input |
| Options.BeforeIsPreorder | _backup/modificadoscript.js:215 | the sort order (strings by `localeCompare`, `undefined` last) is total and transitive |
| Options.ConsSorted | _backup/modificadoscript.js:215 | a value before every element of a sorted list can head it |
| Options.InsertKeepsSorted | _backup/modificadoscript.js:215 | inserting into a sorted list keeps it sorted |
| Options.SortSorts | _backup/modificadoscript.js:215 | `sort` with the `localeCompare` comparator returns a sorted list with `undefined` last |
| Options.InsertKeepsTiedOrder | _backup/modificadoscript.js:215 | an insertion step moves the new element past none that the comparator ties with it, so the tied elements keep their order |
| Options.SortIsStable | _backup/modificadoscript.js:215 | `sort` is stable: the values `localeCompare` ties keep the order they had in the input |
| Options.FilterValues | _backup/modificadoscript.js:215 | `[...new Set(dadosOriginais.map(item => item[property]))].sort(...)`; `FilterValuesDistinct` and `FilterValuesSorted` state what it holds and its order |
| Options.FilterValuesDistinct | _backup/modificadoscript.js:215 | each option list has no duplicates and holds exactly the values the jobs take for the property |
| Options.FilterValuesSorted | _backup/modificadoscript.js:215 | each option list is sorted by `localeCompare`, a missing value last |
| Options.OptionListsStep | _backup/modificadoscript.js:214-243 | building one more select adds exactly that property's option list |
| Filtering.FilterJobs | _backup/modificadoscript.js:119-127 | the `filter` of `filtrarDados` keeping a job when every property with a non-empty selection includes its value; `FilterJobsKeepsExactlyMatches` states what it keeps |
| Filtering.FilterJobsKeepsExactlyMatches | _backup/modificadoscript.js:118-127 | the filtered list is an ordered subsequence of the jobs, holds each passing job as often as it occurs and no other, and each kept job's value is among every non-empty selection |
| Filtering.UnconstrainedKeepsAll | _backup/modificadoscript.js:119-127 | with every entry `null` or empty the filtered list is the whole list |
| Filtering.SelectionFor | _backup/modificadoscript.js:147-164 | what `updateFilters` stores for a property: all option values on "select all", else the selection, `null` when empty; `SelectionForFilters` states how it filters |
| Filtering.SelectionForFilters | _backup/modificadoscript.js:147-164 | a stored selection constrains a property exactly as the selected options say, `"__select_all__"` meaning every option, an empty selection nothing |
| Filtering.SelectAllKeepsStringValued | _backup/modificadoscript.js:150-152 | "select all" keeps exactly the jobs whose value is a string: the option made for `undefined` reads "undefined" and matches nothing |
| Filtering.UpdatedFilterData | _backup/modificadoscript.js:145-165 | `filterData` after `updateFilters`: each visited property set to its `SelectionFor`; `UpdatedFilterDataStep` and `UpdatedKeys` state its steps and keys |
| Filtering.UpdatedFilterDataStep | _backup/modificadoscript.js:145-165 | visiting one more property in `updateFilters` changes that property's entry alone |
| Filtering.UpdatedKeys | _backup/modificadoscript.js:145-165 | `updateFilters` gives every visited property an entry and keeps the others |
| Filtering.ClearedFilterData | _backup/modificadoscript.js:172-178 | `filterData` after `limparTodosOsFiltros`: each visited property set to `null`; `ClearedFilterDataStep`, `ClearedKeys` and `ClearedKeepsAll` state its steps, keys and effect |
| Filtering.ClearedFilterDataStep | _backup/modificadoscript.js:172-178 | clearing one more property sets that entry alone to `null` |
| Filtering.ClearedKeys | _backup/modificadoscript.js:172-178 | clearing gives every visited property an entry and keeps the others |
| Filtering.ClearedKeepsAll | _backup/modificadoscript.js:171-181 | after `limparTodosOsFiltros` the filtered list is the whole list |
| Filtering.ClearingNothingKeepsFilter | assets/js/scripts.js:132-162 | building the selects, which adds `null` entries, filters nothing out |
| Filtering.SequentialFilter | assets/js/scripts.js:72-81 | the list narrowed by one `filter` per constrained property, in `for ... in` order; `SequentialFilterIsFilterJobs` proves it equal to `FilterJobs` |
| Filtering.SequentialFilterPassesEach | assets/js/scripts.js:72-81 | narrowing one property at a time keeps exactly the jobs passing every property visited |
| Filtering.PassesEachSnoc | assets/js/scripts.js:74-80 | passing the properties so far plus one more is passing each |
| Filtering.SequentialFilterIsFilterJobs | assets/js/scripts.js:71-83 | the loop over the properties of `filterData` gives the same list as one `filter` over all of them |
| Ids.AssignIds | _backup/modificadoscript.js:8-11 | the jobs keep their order and properties, and job `i` gets `id` `i + 1` |
| Ids.IdsAreUniqueAndDense | assets/js/scripts.js:8-11 | no two jobs share an id; the ids are exactly 1 to `data.length` |
| Dates.FormatarData | _backup/modificadoscript.js:36-39 | `formatarData` succeeds exactly on a string with at least two dashes |
| Dates.FormatarDataIso | _backup/modificadoscript.js:36-39 | `yyyy-mm-dd` becomes `dd/mm/yyyy` with day and month padded to two characters |
| Dates.FormatarDataTwoDigits | assets/js/scripts.js:26-29 | a two-digit day and month are shown unchanged as `dd/mm/yyyy` |
| Dates.FormatarDataRoundTrip | _backup/jsgrid-config2backup1.js:19-22 | the shown date splits at `/` back into day, month and year |
| Cards.CardFor | assets/js/scripts.js:24-52 | the card of one job: the job, its formatted date, and the clicked mark `localStorage` gives its id; `RenderCardsMarks` states the mark |
| Cards.RenderCards | _backup/modificadoscript.js:31-91 | a rendering loop renders at most one card per job |
| Cards.RenderCardsPrefix | _backup/modificadoscript.js:31-91 | the cards rendered are those of the jobs before the first date that throws, in order, and all jobs exactly when no date throws |
| Cards.RenderCardsMarks | assets/js/scripts.js:24-32 | a card is shown clicked exactly when `localStorage` records its id |
| Cards.DatesShowTail | assets/js/scripts.js:23-55 | the jobs after the first of a list whose dates all show also have dates that show |
| Cards.RenderCardsAppend | assets/js/scripts.js:23-55 | rendering continues past a stretch of jobs whose dates all show |
| Cards.RenderCardsStep | assets/js/scripts.js:23-55 | a loop step on a job whose date shows appends that job's card, all dates so far still showing |
| Cards.RenderCardsStop | assets/js/scripts.js:23-55 | a loop step on a job whose date throws ends the rendering: the cards so far are all the loop renders |
| ModificadoScript.AsEntriesShown | _backup/modificadoscript.js:31-91 | each rendered card is one entry of the container, in order |
| ModificadoScript.AsEntriesAppend | _backup/modificadoscript.js:31-91 | the entries of two runs of cards are the entries of each |
| ModificadoScript.EntriesStep | _backup/modificadoscript.js:31-91 | a `forEach` step on a job whose date shows appends that job's card entry |
| ModificadoScript.PageEntries | _backup/modificadoscript.js:17-91 | what `exibirCards(pagina, append)` adds: the message alone for an empty slice, else the slice's cards; `PageEntriesShape` states its shape |
| ModificadoScript.PageEntriesShape | _backup/modificadoscript.js:17-27 | a page shows the "Sem novos cards" message alone exactly when it is past the last page; otherwise at most 100 cards of `[(p-1)*100, p*100)` in order and no message |
| ModificadoScript.PrefixEntries | _backup/modificadoscript.js:108-113 | the cards of a prefix are those of its two parts |
| ModificadoScript.PageBounds | _backup/modificadoscript.js:18-19 | a page up to the last starts inside the list |
| ModificadoScript.ScrolledEntries | _backup/modificadoscript.js:108-113 | the entries of pages 1 to `k`, each appended below the one before; `ScrollingShowsPrefix` states what they are |
| ModificadoScript.ScrolledEntriesNext | _backup/modificadoscript.js:108-113 | one more scroll appends exactly the next page's entries |
| ModificadoScript.PageListeners | _backup/modificadoscript.js:23-103 | which entries of a freshly shown page have the click listener: all its cards when the slice is non-empty and no date threw, none otherwise |
| ModificadoScript.ScrollStep | _backup/modificadoscript.js:108-113 | scrolling to page `k` appends page `k`'s cards below those already shown |
| ModificadoScript.ScrollingShowsPrefix | _backup/modificadoscript.js:108-113 | scrolling through pages 1 to `k` shows the first `k*100` jobs in order, each once |
| ModificadoScript.CreateFilterSelects | _backup/modificadoscript.js:214-243 | the loop gives each property its option list as `FilterValues` and a `null` entry |
| ModificadoScript.JobBoard.Load | _backup/modificadoscript.js:7-281 | ids assigned, every select built with its entry `null`, option lists as `FilterValues`, page 1 shown with its listeners, invariants `Valid` and `Bindings` established |
| ModificadoScript.JobBoard.ShowFirstPage | _backup/modificadoscript.js:268-281 | the initial `atualizarExibicao()`: `exibirCards(1)` on the unfiltered list, with every selection `null`, `totalLinks` and the count unset; page 1 of the originals is shown with its listeners |
| ModificadoScript.JobBoard.ExibirCards | _backup/modificadoscript.js:17-105 | the container, emptied unless appending, receives the page's cards or the message; `threw` exactly when a date on the page throws; after a page with cards and no throw every card in the container has the listener, otherwise the new entries have none and the old keep theirs |
| ModificadoScript.JobBoard.RenderAndBind | _backup/modificadoscript.js:31-103 | appends the cards of the slice; when no date threw, the listener is bound to every card in the container, else only the new entries lack it; listeners stay on cards only |
| ModificadoScript.JobBoard.AppendCards | _backup/modificadoscript.js:31-91 | appends the `RenderCards` of the slice; `threw` exactly when some date throws |
| ModificadoScript.JobBoard.FiltrarDados | _backup/modificadoscript.js:118-142 | the filtered list is `FilterJobs` of the originals, `totalLinks` its page count, page 1, counts `filtered/total`; the container is page 1 alone, `ScrolledEntries` of one page, with the listeners `PageListeners` gives |
| ModificadoScript.JobBoard.UpdateFilters | _backup/modificadoscript.js:144-169 | every property's entry is stored as the selection says, then the list is filtered again |
| ModificadoScript.JobBoard.StoreSelections | _backup/modificadoscript.js:145-165 | the loop stores `SelectionFor` of each property and keeps `Loaded` |
| ModificadoScript.JobBoard.LimparTodosOsFiltros | _backup/modificadoscript.js:171-181 | every entry becomes `null` and the filtered list is the originals again |
| ModificadoScript.JobBoard.ClearSelections | _backup/modificadoscript.js:172-178 | the loop sets each property's entry to `null` |
| ModificadoScript.JobBoard.OnScrollToBottom | _backup/modificadoscript.js:108-113 | the page number goes up by one and that page's entries are appended below the current ones; a page with cards and no throw binds the listener to every card shown, otherwise the new entries have none |
| ModificadoScript.JobBoard.OnCardClick | _backup/modificadoscript.js:95-103 | a click reaches only an entry with the listener; the card's id is recorded and the current page is shown again with its listeners, replacing the pages appended so far |
| Scripts.IndexOfFilterValues | assets/js/scripts.js:132-141 | the option list built with the `indexOf` test and `localeCompare` sort; `IndexOfFilterValuesIsFilterValues` proves it equal to `FilterValues` |
| Scripts.IndexOfFilterValuesIsFilterValues | assets/js/scripts.js:132-141 | the `indexOf` distinct-and-sort gives the same option list as `Set`-and-sort |
| Scripts.IndexOfFilterValuesDistinct | assets/js/scripts.js:132-141 | each option list has no duplicates and holds exactly the values the jobs take |
| Scripts.JobPage.Load | assets/js/scripts.js:7-195 | ids assigned; the first `filtrarDados` shows page 1 of the originals; the selects are built exactly when no date on page 1 throws |
| Scripts.JobPage.Start | assets/js/scripts.js:132-195 | the first `filtrarDados` shows page 1 of the originals; the selects are built, each entry `null`, exactly when no date on page 1 throws |
| Scripts.JobPage.BuildAndShow | assets/js/scripts.js:132-195 | the selects are built and page 1 shown again, the same cards as before |
| Scripts.JobPage.BuildSelects | assets/js/scripts.js:132-162 | every property gets its option list and a `null` entry, and the filtered list does not change |
| Scripts.JobPage.FillSelects | assets/js/scripts.js:132-162 | the loop adds entries in `filterProperties` order with each option list `OptionLists` gives |
| Scripts.JobPage.ExibirCards | assets/js/scripts.js:17-66 | the emptied container receives the page's cards up to the first date that throws; listeners bound exactly when none threw |
| Scripts.JobPage.AppendCards | assets/js/scripts.js:23-55 | appends the `RenderCards` of the slice; `threw` exactly when some date throws |
| Scripts.JobPage.FiltrarDados | assets/js/scripts.js:71-94 | the filtered list is `FilterJobs` of the originals, with page count, page 1 and counts updated and page 1 shown |
| Scripts.JobPage.Refilter | assets/js/scripts.js:71-91 | the narrowed list is `FilterJobs` of the originals, with the link count its page count, page 1 and the counts `filtered/total` |
| Scripts.JobPage.Narrow | assets/js/scripts.js:72-81 | the `for ... in` loop computes `SequentialFilter` over the properties in insertion order |
| Scripts.JobPage.UpdateFilters | assets/js/scripts.js:97-118 | every property's entry is stored as the selection says, then the list is filtered again |
| Scripts.JobPage.StoreSelections | assets/js/scripts.js:98-115 | the loop stores `SelectionFor` of each property |
| Scripts.JobPage.LimparTodosOsFiltros | assets/js/scripts.js:120-130 | every entry becomes `null`; the filtered list is the originals and page 1 of them is shown |
| Scripts.JobPage.ClearSelections | assets/js/scripts.js:121-127 | the loop sets each property's entry to `null` |
| Scripts.JobPage.OnCardClick | assets/js/scripts.js:58-65 | the card's id is recorded and page 1 is shown again with that card marked |
| JsgridBackup.AssignIdsInPlace | _backup/jsgrid-config2backup1.js:8-10 | the array afterwards is `AssignIds` of the array before: `data[i].id = i + 1`, nothing else changed |
| JsgridBackup.DistinctFieldValues | _backup/jsgrid-config2backup1.js:86-90 | the distinct categories/levels have no duplicates, cover exactly the values present, in order of first occurrence |
| JsgridBackup.SelectOptions | _backup/jsgrid-config2backup1.js:93-96 | the select's options are "Todos" (`""`) followed by one option per distinct value, as `String(value)` |
| JsgridBackup.CardMatchesBothSelects | _backup/jsgrid-config2backup1.js:108-118 | the four branches amount to: `""` leaves a select unconstrained, any other value must equal the job's string |
| JsgridBackup.FilterCards | _backup/jsgrid-config2backup1.js:108-118 | the `filter` of `filtrarCards` with the two selects' values; `FilterCardsKeepsExactlyMatches` states what it keeps |
| JsgridBackup.FilterCardsKeepsExactlyMatches | _backup/jsgrid-config2backup1.js:108-118 | the filtered list is an ordered subsequence holding each matching job as often as it occurs and no other |
| JsgridBackup.TodosKeepsAll | _backup/jsgrid-config2backup1.js:115-116 | with both selects on "Todos" the filtered list is the originals |
| JsgridBackup.LevelOptionSelects | _backup/jsgrid-config2backup1.js:141-144 | the option made for a string level keeps exactly that level; the one made for `undefined` keeps no job lacking a level |
| JsgridBackup.CardGrid.Load | _backup/jsgrid-config2backup1.js:11-16 | originals loaded, both option lists built, page 1 rendered, `Valid` and `MarksRecorded` established |
| JsgridBackup.CardGrid.ExibirCards | _backup/jsgrid-config2backup1.js:25-77 | from page 1 on, the container is the page's `RenderCards`; before page 1 it throws with nothing shown; listeners bound exactly when nothing threw |
| JsgridBackup.CardGrid.CardLoop | _backup/jsgrid-config2backup1.js:31-64 | the index loop with `break` at the list end renders the slice up to the first date that throws |
| JsgridBackup.CardGrid.FiltrarCards | _backup/jsgrid-config2backup1.js:104-125 | the filtered list is `FilterCards` of the originals, `totalLinks` its page count, page 1 shown |
| JsgridBackup.CardGrid.OnLevelChange | _backup/jsgrid-config2backup1.js:151-154 | choosing a level keeps exactly the jobs with that level, or all of them for "Todos" |
| JsgridBackup.CardGrid.OnCardClick | _backup/jsgrid-config2backup1.js:67-76 | the card's id is recorded and that card alone is marked, with nothing re-rendered |
| JsgridBackup.OnDataLoaded | _backup/jsgrid-config2backup1.js:6-16 | ids are written into the array in place, then the grid shows page 1 of the array as it now stands |
| JsgridConfig.CollectValues | _backup/jsgrid-config.js:5-10 | the push-if-absent loop collects the field's distinct values at their first occurrences |
| JsgridConfig.GetUniqueItems | _backup/jsgrid-config.js:4-22 | the items are `""` then the sorted distinct values, with no duplicates, exactly the values present, length distinct count plus one, each naming itself |
| JsgridConfig.NormalizeValue | _backup/jsgrid-config.js:61-68 | a value that reads as a number is kept; any other becomes its upper-cased string, a falsy one `""` |
| JsgridConfig.NormalizeReduce | _backup/jsgrid-config.js:61-68 | the `reduce` over the keys from `{}` gives an object with exactly those keys, each holding its normalised value |
| JsgridConfig.ReduceIsNormalizeJob | _backup/jsgrid-config.js:61-68 | whatever order `Object.keys` lists a job's properties in, the `reduce` builds the same copy: same properties, each value normalised |
| JsgridConfig.VerifyIndex | _backup/jsgrid-config.js:71-87 | `verifyIndex` returns `false` or a number, and throws only on a defined non-string value |
| JsgridConfig.Grep | _backup/jsgrid-config.js:59-101 | `$.grep`: the elements the callback keeps, in order, a throw propagating; `GrepFilters` states it |
| JsgridConfig.GrepFilters | _backup/jsgrid-config.js:59-101 | `$.grep` throws exactly when the callback throws on some job, else returns the jobs it keeps in order |
| JsgridConfig.Checks | _backup/jsgrid-config.js:89-100 | the ten `verifyIndex(...) != -1` results joined by the non-short-circuit `&`; `ChecksAll` states it |
| JsgridConfig.ChecksAll | _backup/jsgrid-config.js:89-100 | the ten checks joined by `&` accept exactly when each check does, and throw exactly when one does |
| JsgridConfig.LoadData | _backup/jsgrid-config.js:57-103 | `loadData(filter)`: `$.grep` over the jobs with the normalise-then-check callback; `LoadDataFilters` states what it returns |
| JsgridConfig.LoadDataFilters | _backup/jsgrid-config.js:57-103 | `loadData` throws exactly when some job's checks throw, else returns the ordered subsequence of jobs every column accepts |
| JsgridConfig.UnsetColumnAccepts | _backup/jsgrid-config.js:72-73 | a column with no filter, or a job without the field, accepts the job |
| JsgridConfig.EmptyFilterKeepsAll | _backup/jsgrid-config.js:89-100 | an empty filter row returns every job |
| JsgridConfig.TextColumnMatches | _backup/jsgrid-config.js:75-78 | a text filter matches a string value exactly when the stripped, upper-cased filter occurs in the stripped, normalised value |
| JsgridConfig.StringJobsNeverThrow | _backup/jsgrid-config.js:75-78 | when every job value is a string, no filter row makes `loadData` throw |
| BackupScript.TextCards | _backup/script.js:22-41 | the cards of a slice, one per job in index order, each its title, level and category; `CardPage.ExibirCards` states what the container receives |
| BackupScript.CardPage.Load | _backup/script.js:7-13 | the filtered list is the loaded list, `totalLinks` is `ceil(len / 240)`, and page 1 shows the first `min(240, len)` jobs |
| BackupScript.CardPage.ExibirCards | _backup/script.js:16-48 | the emptied container receives exactly `max(0, min(end, len) - start)` cards, those of the page's slice in index order; before page 1 it throws |

## Left out

- The HTML of the cards, the theme toggle (`assets/js/scripts.js:199-207`) and jQuery's DOM handling: a card is its job, its formatted date and its clicked mark. In `_backup/script.js` a card is the job's title, level and category.
- `$.getJSON` / `$.ajax` and the `Last-Modified` header: the loaded array is a parameter. A failed synchronous load, which leaves `jobs` null in `_backup/jsgrid-config.js`, is not modelled.
- `localStorage` as a store: the clicked ids are a set passed in and updated by the click handlers.
- Scroll geometry: `OnScrollToBottom` is the handler's effect once the bottom is reached.
- The jsGrid widget itself: its configuration, built-in sort and paging, `onDataLoaded`/`onRefreshing` counters, `isMobileDevice` and the row click opening `window.open` (`_backup/jsgrid-config.js:106-193`).
- `abrirURL`/`window.open` in `_backup/jsgrid-config2backup1.js`, and the `.apply-button` handler, which matches no element.
- `exibirLinksPagina` in `_backup/jsgrid-config2backup1.js` is not defined. Each `atualizarExibicao` therefore throws a ReferenceError after the cards are rendered. This changes no state, so the model stops at the rendering.
- The category select of `_backup/jsgrid-config2backup1.js` is replaced by `innerHTML +=` before the user can use it. The model keeps the detached select, whose value stays `""`, and offers no category change.
- The stray `exibirCards(paginaAtual)` at `_backup/script.js:55` runs outside the callback where `exibirCards` is defined.
- The click listener of `_backup/script.js` looks for `.card` elements, and the cards do not have that class, so it binds nothing.
- HTML escaping of option values: an option's value is `String(v)` of the data value.
- JSON `null`, floating-point numbers and nested values: a value is `undefined`, a boolean, an integer or a string.
- Comparing a number or boolean with `localeCompare` while sorting an option list: the source throws a TypeError there (modificadoscript.js:215, scripts.js:140, jsgrid-config.js:13), which aborts building the selects; the model's `Options.Before` instead orders such values as if they compared true, so `Sort` returns a list. The sort lemmas assume the values are strings or `undefined`, as in the data the pages load.
- Unicode case mapping, NFD normalisation, the `\p{Diacritic}` class, number parsing and `localeCompare` are library fields of `Js.Lib`, not definitions.
- Object identity: jobs are values, so the aliasing between `dadosOriginais` and the loaded array, and between `dadosFiltrados` and `dadosOriginais` in `_backup/script.js`, appears only as equal values.
- Selecting or deselecting `<option>` elements in `updateFilters`: the stored selections are modelled, the DOM selection state is not. The `"__select_all__"` branch is reachable only when a data value equals that string, since no option with that value is ever built.
- `exibirFiltrosHabilitados` in `_backup/modificadoscript.js` has an empty body and is not modelled.
