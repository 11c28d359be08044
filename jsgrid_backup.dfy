/**
 * The card page of `_backup/jsgrid-config2backup1.js`: 20 cards per page
 * shown by an index loop, a category select and a level select whose
 * options are "Todos" (`""`) followed by the distinct values in order of
 * first occurrence, and a click that marks a card in place.
 */
module JsgridBackup {
  import opened Js
  import opened JsArrays
  import opened Paging
  import opened Ids
  import opened Options
  import opened Filtering
  import opened Cards

  const CardsPorPagina := 20

  /**
   * The `for` loop of the `$.getJSON` callback: `data[i].id = i + 1` for
   * every index, on the loaded array itself.
   */
  method AssignIdsInPlace(data: array<Job>)
    modifies data
    ensures data[..] == AssignIds(old(data[..]))
  {
    for i := 0 to data.Length
      invariant forall j :: 0 <= j < i ==> data[j] == old(data[j])["id" := Num(j + 1)]
      invariant forall j :: i <= j < data.Length ==> data[j] == old(data[j])
    {
      data[i] := data[i]["id" := Num(i + 1)];
    }
  }

  /**
   * The distinct values a field takes, each at its first occurrence
   * (`self.indexOf(value) === index`): no value twice, every value the jobs
   * take and no other, in the order the values first appear.
   */
  lemma DistinctFieldValues(jobs: seq<Job>, field: string)
    ensures var d := KeepFirstOccurrences(FieldValues(jobs, field));
      && NoDuplicates(d)
      && (forall v :: v in d <==> exists i :: 0 <= i < |jobs| && Get(jobs[i], field) == v)
      && (forall i, j :: 0 <= i < j < |d| ==> ArrayIndexOf(FieldValues(jobs, field), d[i]) < ArrayIndexOf(FieldValues(jobs, field), d[j]))
  {
    var vs := FieldValues(jobs, field);
    KeepFirstOccurrencesIsDistinct(vs);
    DistinctKeepsFirstOccurrenceOrder(vs);
    forall v
      ensures v in vs <==> exists i :: 0 <= i < |jobs| && Get(jobs[i], field) == v
    {
      if v in vs {
        var i :| 0 <= i < |vs| && vs[i] == v;
        assert Get(jobs[i], field) == v;
      }
      if exists i :: 0 <= i < |jobs| && Get(jobs[i], field) == v {
        var i :| 0 <= i < |jobs| && Get(jobs[i], field) == v;
        assert vs[i] == v;
      }
    }
  }

  /** The option values of a select: "Todos" (`""`), then one option per value. */
  function SelectOptions(values: seq<Value>): (r: seq<string>)
    ensures |r| == |values| + 1 && r[0] == ""
    ensures forall i :: 0 <= i < |values| ==> r[i + 1] == ToString(values[i])
  {
    [""] + OptionValues(values)
  }

  /** The callback `filtrarCards` gives to `dadosOriginais.filter`, branch by branch. */
  predicate CardMatches(item: Job, selectedCategory: string, selectedLevel: string)
  {
    if selectedCategory != "" && selectedLevel != "" then
      Get(item, "category") == Str(selectedCategory) && Get(item, "level") == Str(selectedLevel)
    else if selectedCategory != "" then Get(item, "category") == Str(selectedCategory)
    else if selectedLevel != "" then Get(item, "level") == Str(selectedLevel)
    else true
  }

  /** The four branches are one rule: `""` leaves a select unconstrained, any other value must equal the job's string. */
  lemma CardMatchesBothSelects(item: Job, selectedCategory: string, selectedLevel: string)
    ensures CardMatches(item, selectedCategory, selectedLevel) <==>
      (selectedCategory == "" || Get(item, "category") == Str(selectedCategory)) &&
      (selectedLevel == "" || Get(item, "level") == Str(selectedLevel))
  {
  }

  function Matching(selectedCategory: string, selectedLevel: string): Job -> bool
  {
    item => CardMatches(item, selectedCategory, selectedLevel)
  }

  /** `dadosOriginais.filter(...)` in `filtrarCards`. */
  function FilterCards(jobs: seq<Job>, selectedCategory: string, selectedLevel: string): seq<Job>
  {
    Filter(jobs, Matching(selectedCategory, selectedLevel))
  }

  /**
   * The filtered list is an order-preserving subsequence of the jobs holding
   * every job that matches both selects (as often as it occurs) and no other.
   */
  lemma FilterCardsKeepsExactlyMatches(jobs: seq<Job>, selectedCategory: string, selectedLevel: string)
    ensures IsSubsequence(FilterCards(jobs, selectedCategory, selectedLevel), jobs)
    ensures forall job ::
      multiset(FilterCards(jobs, selectedCategory, selectedLevel))[job] ==
      if CardMatches(job, selectedCategory, selectedLevel) then multiset(jobs)[job] else 0
  {
    var keep := Matching(selectedCategory, selectedLevel);
    FilterIsSubsequence(jobs, keep);
    forall job
      ensures multiset(FilterCards(jobs, selectedCategory, selectedLevel))[job] ==
        if CardMatches(job, selectedCategory, selectedLevel) then multiset(jobs)[job] else 0
    {
      FilterCounts(jobs, keep, job);
    }
  }

  /** With both selects on "Todos" nothing is filtered out. */
  lemma TodosKeepsAll(jobs: seq<Job>)
    ensures FilterCards(jobs, "", "") == jobs
  {
    FilterKeepsAll(jobs, Matching("", ""));
  }

  /**
   * Choosing the option made for a value keeps exactly the jobs with that
   * value when it is a non-empty string; the option made for a missing
   * value reads "undefined" and keeps no job that lacks the field.
   */
  lemma LevelOptionSelects(item: Job, v: Value)
    ensures v.Str? && v.s != "" ==> (CardMatches(item, "", ToString(v)) <==> Get(item, "level") == v)
    ensures v == Undefined && Get(item, "level") == Undefined ==> !CardMatches(item, "", ToString(v))
  {
  }

  /**
   * The page's state: the variables of the `$.getJSON` callback.  The
   * category select that `filtrarCards` reads is the one built first; the
   * `innerHTML +=` that adds the level select replaces it in the document,
   * so the select the user sees has no listener and the one read keeps its
   * first option, "Todos".
   */
  class CardGrid {
    const dadosOriginais: seq<Job>
    /** The option values of the category select and of the level select. */
    const categoryOptions: seq<string>
    const levelOptions: seq<string>
    var dadosFiltrados: seq<Job>
    var paginaAtual: int
    var totalLinks: nat
    /** `categoryFilterSelect.value`: the detached select, always on "Todos". */
    var selectedCategory: string
    /** `levelFilterSelect.value`. */
    var selectedLevel: string
    /** The ids `localStorage` records as clicked (`card_<id>` set to `'true'`). */
    var clicked: set<Value>
    var container: seq<Card>
    /** The cards shown have their click listener: the last rendering did not throw. */
    var clickable: bool

    /** The filtered list and the link count agree with the selects' values. */
    ghost predicate Valid()
      reads this`dadosFiltrados, this`paginaAtual, this`totalLinks, this`selectedCategory, this`selectedLevel
    {
      && paginaAtual == 1
      && selectedCategory == ""
      && dadosFiltrados == FilterCards(dadosOriginais, selectedCategory, selectedLevel)
      && totalLinks == CeilDiv(|dadosFiltrados|, CardsPorPagina)
    }

    /** A card shown as clicked has its id recorded in `localStorage`. */
    ghost predicate MarksRecorded()
      reads this`container, this`clicked
    {
      forall i :: 0 <= i < |container| && container[i].clicked ==> Get(container[i].job, "id") in clicked
    }

    /**
     * The globals the `$.getJSON` callback sets once ids are in `originais`,
     * with `visited` the ids `localStorage` already records as clicked: both
     * selects are built and page 1 is shown.
     */
    constructor Load(originais: seq<Job>, visited: set<Value>)
      ensures Valid() && MarksRecorded()
      ensures dadosOriginais == originais && dadosFiltrados == originais
      ensures categoryOptions == SelectOptions(KeepFirstOccurrences(FieldValues(originais, "category")))
      ensures levelOptions == SelectOptions(KeepFirstOccurrences(FieldValues(originais, "level")))
      ensures clicked == visited && selectedLevel == ""
      ensures container == RenderCards(PageSlice(originais, CardsPorPagina, 1), visited)
      ensures clickable <==> DatesShow(PageSlice(originais, CardsPorPagina, 1))
    {
      dadosOriginais := originais;
      dadosFiltrados := originais;
      totalLinks := CeilDiv(|originais|, CardsPorPagina);
      categoryOptions := SelectOptions(KeepFirstOccurrences(FieldValues(originais, "category")));
      levelOptions := SelectOptions(KeepFirstOccurrences(FieldValues(originais, "level")));
      paginaAtual := 1;
      selectedCategory := "";
      selectedLevel := "";
      clicked := visited;
      container := [];
      clickable := false;
      new;
      TodosKeepsAll(dadosOriginais);
      assert Valid();
      var _ := ExibirCards(paginaAtual);
    }

    /**
     * `exibirCards(pagina)`: the container is emptied and the loop from
     * `(pagina - 1) * 20` to `pagina * 20`, stopped at the end of the list,
     * appends a card per job until one throws.  Page 1 and later show the
     * page's slice; before page 1 the first index is negative, the job read
     * there is `undefined` and reading its `id` throws.  The click listeners
     * are bound only when nothing threw.
     */
    method ExibirCards(pagina: int) returns (threw: bool)
      modifies this`container, this`clickable
      ensures pagina >= 1 ==> container == RenderCards(PageSlice(dadosFiltrados, CardsPorPagina, pagina), clicked)
      ensures pagina >= 1 ==> (threw <==> !DatesShow(PageSlice(dadosFiltrados, CardsPorPagina, pagina)))
      ensures pagina < 1 ==> container == [] && threw
      ensures clickable == !threw
      ensures MarksRecorded()
    {
      container := [];
      clickable := false;
      var startIndex := (pagina - 1) * CardsPorPagina;
      var endIndex := startIndex + CardsPorPagina;
      threw := CardLoop(startIndex, endIndex);
      clickable := !threw;
    }

    /** The `for` loop of `exibirCards`, appending to the emptied container. */
    method CardLoop(startIndex: int, endIndex: int) returns (threw: bool)
      requires container == [] && endIndex == startIndex + CardsPorPagina
      modifies this`container
      ensures startIndex >= 0 ==> container == RenderCards(Slice(dadosFiltrados, startIndex, endIndex), clicked)
      ensures startIndex >= 0 ==> (threw <==> !DatesShow(Slice(dadosFiltrados, startIndex, endIndex)))
      ensures startIndex < 0 ==> container == [] && threw
      ensures MarksRecorded()
    {
      ghost var items := Slice(dadosFiltrados, startIndex, endIndex);
      if startIndex >= 0 {
        SliceElements(dadosFiltrados, startIndex, endIndex);
      }
      var i := startIndex;
      ghost var j := 0;
      while i < endIndex
        invariant startIndex <= i <= endIndex && j == i - startIndex
        invariant startIndex < 0 ==> i == startIndex && container == []
        invariant startIndex >= 0 ==> j <= |items|
        invariant startIndex >= 0 ==> DatesShow(items[..j])
        invariant startIndex >= 0 ==> container == RenderCards(items[..j], clicked)
      {
        if i >= |dadosFiltrados| {
          break;
        }
        if i < 0 {
          return true;
        }
        var item := dadosFiltrados[i];
        assert item == items[j];
        if !DateShows(item) {
          RenderCardsStop(items, j, clicked);
          RenderCardsMarks(items, clicked);
          return true;
        }
        RenderCardsStep(items, j, clicked);
        container := container + [CardFor(item, clicked)];
        i, j := i + 1, j + 1;
      }
      TakeAll(items);
      RenderCardsMarks(items, clicked);
      return false;
    }

    /**
     * `filtrarCards`: the originals matching both selects' values become the
     * filtered list, the link count is recomputed and page 1 is shown.
     */
    method FiltrarCards() returns (threw: bool)
      requires selectedCategory == ""
      modifies this`dadosFiltrados, this`totalLinks, this`paginaAtual, this`container, this`clickable
      ensures Valid() && MarksRecorded()
      ensures dadosFiltrados == FilterCards(dadosOriginais, selectedCategory, selectedLevel)
      ensures container == RenderCards(PageSlice(dadosFiltrados, CardsPorPagina, 1), clicked)
      ensures threw <==> !DatesShow(PageSlice(dadosFiltrados, CardsPorPagina, 1))
    {
      dadosFiltrados := FilterCards(dadosOriginais, selectedCategory, selectedLevel);
      totalLinks := CeilDiv(|dadosFiltrados|, CardsPorPagina);
      paginaAtual := 1;
      threw := ExibirCards(paginaAtual);
    }

    /**
     * A `change` of the level select to the option `level`: the only select
     * with a listener.  The category read stays "Todos", so the list keeps
     * exactly the jobs with the chosen level, or every job for "Todos".
     */
    method OnLevelChange(level: string) returns (threw: bool)
      requires Valid() && level in levelOptions
      modifies this`selectedLevel, this`dadosFiltrados, this`totalLinks, this`paginaAtual, this`container, this`clickable
      ensures Valid() && MarksRecorded() && selectedLevel == level
      ensures forall job :: job in dadosFiltrados <==> job in dadosOriginais && (level == "" || Get(job, "level") == Str(level))
      ensures container == RenderCards(PageSlice(dadosFiltrados, CardsPorPagina, 1), clicked)
      ensures threw <==> !DatesShow(PageSlice(dadosFiltrados, CardsPorPagina, 1))
    {
      selectedLevel := level;
      threw := FiltrarCards();
      forall job
        ensures job in dadosFiltrados <==> job in dadosOriginais && (level == "" || Get(job, "level") == Str(level))
      {
        FilterCardsKeepsExactlyMatches(dadosOriginais, "", level);
        assert job in dadosFiltrados <==> multiset(dadosFiltrados)[job] > 0;
      }
    }

    /**
     * A click on the card at position `k`, whose listener is bound: its id is
     * recorded as clicked and that card alone is marked; nothing is
     * re-rendered.
     */
    method OnCardClick(k: nat)
      requires clickable && k < |container| && MarksRecorded()
      modifies this`clicked, this`container
      ensures clicked == old(clicked) + {Get(old(container)[k].job, "id")}
      ensures container == old(container)[k := old(container)[k].(clicked := true)]
      ensures MarksRecorded()
    {
      var card := container[k];
      clicked := clicked + {Get(card.job, "id")};
      container := container[k := card.(clicked := true)];
    }
  }

  /**
   * The `$.getJSON` callback for the loaded array `data`, with `visited` the
   * ids `localStorage` already records as clicked: every job gets its id in
   * place, then the grid is set up on the array as it now stands.
   */
  method OnDataLoaded(data: array<Job>, visited: set<Value>) returns (grid: CardGrid)
    modifies data
    ensures data[..] == AssignIds(old(data[..]))
    ensures grid.Valid() && grid.MarksRecorded()
    ensures grid.dadosOriginais == data[..] && grid.clicked == visited
    ensures grid.container == RenderCards(PageSlice(data[..], CardsPorPagina, 1), visited)
    ensures grid.clickable <==> DatesShow(PageSlice(data[..], CardsPorPagina, 1))
  {
    AssignIdsInPlace(data);
    grid := new CardGrid.Load(data[..], visited);
  }
}
