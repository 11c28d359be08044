/**
 * The card page of `assets/js/scripts.js`: the first 50 cards of the
 * filtered list, re-rendered from scratch on every change, and one
 * multi-select filter per job property whose options are the property's
 * distinct values (by an `indexOf` test) sorted with `localeCompare`.
 */
module Scripts {
  import opened Js
  import opened JsArrays
  import opened Paging
  import opened Ids
  import opened Options
  import opened Filtering
  import opened Cards

  const CardsPorPagina := 50

  /** The `filterProperties` argument of `createFilterContainers`, in the order the selects are built. */
  const FilterProperties := ["company", "company_type", "level", "category", "remote?", "affirmative?", "temporary?"]

  /**
   * The option list of the select for `property`: the values the jobs take,
   * each at its first occurrence (`self.indexOf(value) === index`), sorted
   * with `localeCompare`.
   */
  function IndexOfFilterValues(lib: Lib, jobs: seq<Job>, property: string): seq<Value>
  {
    Sort(lib, KeepFirstOccurrences(FieldValues(jobs, property)))
  }

  /** The `indexOf` test builds the same option list as a `Set`. */
  lemma IndexOfFilterValuesIsFilterValues(lib: Lib, jobs: seq<Job>, property: string)
    ensures IndexOfFilterValues(lib, jobs, property) == FilterValues(lib, jobs, property)
  {
    KeepFirstOccurrencesIsDistinct(FieldValues(jobs, property));
  }

  /** Each value the jobs take for the property is offered once, and nothing else is. */
  lemma IndexOfFilterValuesDistinct(lib: Lib, jobs: seq<Job>, property: string)
    ensures NoDuplicates(IndexOfFilterValues(lib, jobs, property))
    ensures forall v :: v in IndexOfFilterValues(lib, jobs, property) <==> exists i :: 0 <= i < |jobs| && Get(jobs[i], property) == v
  {
    IndexOfFilterValuesIsFilterValues(lib, jobs, property);
    FilterValuesDistinct(lib, jobs, property);
  }

  /**
   * The page's state: the variables of the `$.getJSON` callback and of
   * `createFilterContainers`.
   */
  class JobPage {
    /** The library functions the page calls. */
    const lib: Lib
    const filterProperties: seq<string>
    const dadosOriginais: seq<Job>
    /** The option list each select is to be built from: `OptionLists` of the loaded jobs. */
    ghost const optionLists: map<string, seq<Value>>
    var dadosFiltrados: seq<Job>
    var paginaAtual: int
    /** `totalLinks`, the implicit global `filtrarDados` writes. */
    var totalLinks: nat
    /** The numbers in the "Quantidade de Vagas: filtradas/total" text. */
    var contagem: (nat, nat)
    var filterData: FilterData
    /** The properties of `filterData` in the order they were added, the order of `for ... in`. */
    var filterOrder: seq<string>
    /** The values each filter select was built from, once built. */
    var filterOptions: map<string, seq<Value>>
    /** The filter selects, their listeners and the clear button exist. */
    var selectsBuilt: bool
    /** The ids `localStorage` records as clicked (`card_<id>` set to `'true'`). */
    var clicked: set<Value>
    var container: seq<Card>
    /** The cards shown have their click listener: the last rendering did not throw. */
    var clickable: bool

    /** The filter state: empty until the selects are built, one entry per property after. */
    ghost predicate FiltersReady()
      reads this`filterData, this`filterOrder, this`filterOptions, this`selectsBuilt
    {
      && (forall p :: p in filterData <==> p in filterOrder)
      && (selectsBuilt ==> filterOrder == filterProperties && filterOptions == optionLists)
      && (!selectsBuilt ==> filterOrder == [] && filterData == map[])
    }

    /** The shown page: the cards rendered from the filtered list, listeners bound when none threw. */
    ghost predicate Shown()
      reads this`dadosFiltrados, this`paginaAtual, this`clicked, this`container, this`clickable
    {
      && container == RenderCards(PageSlice(dadosFiltrados, CardsPorPagina, paginaAtual), clicked)
      && (clickable <==> DatesShow(PageSlice(dadosFiltrados, CardsPorPagina, paginaAtual)))
    }

    /** The filtered list, the link count and the counts shown agree with the selections. */
    ghost predicate Valid()
      reads this`dadosFiltrados, this`paginaAtual, this`totalLinks, this`contagem, this`filterData,
            this`filterOrder, this`filterOptions, this`selectsBuilt
    {
      && FiltersReady()
      && paginaAtual == 1
      && dadosFiltrados == FilterJobs(dadosOriginais, filterData)
      && totalLinks == CeilDiv(|dadosFiltrados|, CardsPorPagina)
      && contagem == (|dadosFiltrados|, |dadosOriginais|)
    }

    /**
     * The `$.getJSON` callback for the loaded `data`, with `visited` the ids
     * `localStorage` already records as clicked.  `createFilterContainers`
     * filters with no selection and shows page 1 before it builds anything;
     * when a card's date throws there, the callback ends and no select is
     * built.  Otherwise each select is built with its entry set to `null`
     * and page 1 is shown again.
     */
    constructor Load(lib: Lib, data: seq<Job>, visited: set<Value>)
      ensures Valid() && Shown()
      ensures this.lib == lib && filterProperties == FilterProperties && clicked == visited
      ensures dadosOriginais == AssignIds(data) && dadosFiltrados == dadosOriginais
      ensures optionLists == OptionLists(lib, dadosOriginais, filterProperties)
      ensures selectsBuilt <==> DatesShow(PageSlice(dadosOriginais, CardsPorPagina, 1))
      ensures selectsBuilt ==> filterData == ClearedFilterData(map[], filterProperties)
      ensures container == RenderCards(PageSlice(dadosOriginais, CardsPorPagina, 1), visited)
    {
      this.lib := lib;
      filterProperties := FilterProperties;
      var originais := AssignIds(data);
      dadosOriginais := originais;
      optionLists := OptionLists(lib, originais, FilterProperties);
      dadosFiltrados := originais;
      paginaAtual := 1;
      totalLinks := 0;
      contagem := (0, 0);
      filterData := map[];
      filterOrder := [];
      filterOptions := map[];
      selectsBuilt := false;
      clicked := visited;
      container := [];
      clickable := false;
      new;
      Start();
    }

    /**
     * The body of `createFilterContainers` on a page with no selects yet:
     * filtering with no selection, then, unless a date threw, building the
     * selects and showing page 1 again.
     */
    method Start()
      requires FiltersReady() && !selectsBuilt
      requires dadosFiltrados == dadosOriginais
      requires optionLists == OptionLists(lib, dadosOriginais, filterProperties)
      modifies this`dadosFiltrados, this`totalLinks, this`paginaAtual, this`contagem, this`container, this`clickable
      modifies this`filterData, this`filterOrder, this`filterOptions, this`selectsBuilt
      ensures Valid() && Shown() && dadosFiltrados == dadosOriginais
      ensures selectsBuilt <==> DatesShow(PageSlice(dadosOriginais, CardsPorPagina, 1))
      ensures selectsBuilt ==> filterData == ClearedFilterData(map[], filterProperties)
    {
      UnconstrainedKeepsAll(dadosOriginais, map[]);
      var threw := FiltrarDados();
      if !threw {
        BuildAndShow();
      }
    }

    /**
     * The rest of the callback once the first rendering did not throw: the
     * selects are built, which changes no filter, and page 1 is shown again.
     */
    method BuildAndShow()
      requires Valid() && Shown() && !selectsBuilt && clickable
      requires optionLists == OptionLists(lib, dadosOriginais, filterProperties)
      modifies this`filterData, this`filterOrder, this`filterOptions, this`selectsBuilt, this`container, this`clickable
      ensures Valid() && Shown() && selectsBuilt && clickable
      ensures filterData == ClearedFilterData(map[], filterProperties)
      ensures container == old(container)
    {
      BuildSelects();
      var _ := ExibirCards(paginaAtual);
    }

    /**
     * The `filterProperties.forEach` loop of `createFilterContainers`: each
     * property's option list is built and its entry set to `null`.
     */
    method BuildSelects()
      requires Valid() && !selectsBuilt
      requires optionLists == OptionLists(lib, dadosOriginais, filterProperties)
      modifies this`filterData, this`filterOrder, this`filterOptions, this`selectsBuilt
      ensures Valid() && selectsBuilt
      ensures filterData == ClearedFilterData(map[], filterProperties)
    {
      FillSelects();
      ClearingNothingKeepsFilter(dadosOriginais, filterProperties);
    }

    /** The loop of `BuildSelects`. */
    method FillSelects()
      requires FiltersReady() && !selectsBuilt
      requires optionLists == OptionLists(lib, dadosOriginais, filterProperties)
      modifies this`filterData, this`filterOrder, this`filterOptions, this`selectsBuilt
      ensures FiltersReady() && selectsBuilt
      ensures filterData == ClearedFilterData(map[], filterProperties)
    {
      var options: map<string, seq<Value>> := map[];
      for i := 0 to |filterProperties|
        invariant options == OptionLists(lib, dadosOriginais, filterProperties[..i])
        invariant filterData == ClearedFilterData(map[], filterProperties[..i])
        invariant filterOrder == filterProperties[..i]
      {
        OptionListsStep(lib, dadosOriginais, filterProperties, i);
        ClearedFilterDataStep(map[], filterProperties, i);
        var property := filterProperties[i];
        IndexOfFilterValuesIsFilterValues(lib, dadosOriginais, property);
        options := options[property := IndexOfFilterValues(lib, dadosOriginais, property)];
        PrefixSnoc(filterProperties, i);
        filterData := filterData[property := Null];
        filterOrder := filterOrder + [property];
      }
      assert filterProperties[..|filterProperties|] == filterProperties;
      ClearedKeys(map[], filterProperties);
      filterOptions := options;
      selectsBuilt := true;
    }

    /**
     * `exibirCards(pagina)`: the container is emptied and receives a card for
     * each job of the page's slice, until a job's date makes `formatarData`
     * throw; the click listeners are bound only when none threw.
     */
    method ExibirCards(pagina: int) returns (threw: bool)
      modifies this`container, this`clickable
      ensures container == RenderCards(PageSlice(dadosFiltrados, CardsPorPagina, pagina), clicked)
      ensures threw <==> !DatesShow(PageSlice(dadosFiltrados, CardsPorPagina, pagina))
      ensures clickable == !threw
    {
      container := [];
      var start := (pagina - 1) * CardsPorPagina;
      var end := start + CardsPorPagina;
      var sliced := Slice(dadosFiltrados, start, end);
      assert sliced == PageSlice(dadosFiltrados, CardsPorPagina, pagina);
      threw := AppendCards(sliced);
      clickable := !threw;
    }

    /** `slicedData.forEach(...)`: a card for each job appended, until a job's date throws. */
    method AppendCards(items: seq<Job>) returns (threw: bool)
      modifies this`container
      ensures container == old(container) + RenderCards(items, clicked)
      ensures threw <==> !DatesShow(items)
    {
      for i := 0 to |items|
        invariant DatesShow(items[..i])
        invariant container == old(container) + RenderCards(items[..i], clicked)
      {
        var item := items[i];
        if !DateShows(item) {
          RenderCardsStop(items, i, clicked);
          return true;
        }
        RenderCardsStep(items, i, clicked);
        container := container + [CardFor(item, clicked)];
      }
      assert items[..|items|] == items;
      return false;
    }

    /**
     * `filtrarDados`: a copy of the originals narrowed by each property of
     * `filterData` in turn becomes the filtered list; the link count and the
     * counts shown are recomputed and page 1 is shown again.
     */
    method FiltrarDados() returns (threw: bool)
      requires FiltersReady()
      modifies this`dadosFiltrados, this`totalLinks, this`paginaAtual, this`contagem, this`container, this`clickable
      ensures Valid() && Shown()
      ensures dadosFiltrados == FilterJobs(dadosOriginais, filterData)
      ensures threw <==> !DatesShow(PageSlice(dadosFiltrados, CardsPorPagina, 1))
    {
      Refilter();
      threw := ExibirCards(paginaAtual);
    }

    /** The part of `filtrarDados` before the cards are shown. */
    method Refilter()
      requires FiltersReady()
      modifies this`dadosFiltrados, this`totalLinks, this`paginaAtual, this`contagem
      ensures Valid()
    {
      var filteredData := Narrow();
      SequentialFilterIsFilterJobs(dadosOriginais, filterData, filterOrder);
      dadosFiltrados := filteredData;
      totalLinks := CeilDiv(|dadosFiltrados|, CardsPorPagina);
      paginaAtual := 1;
      contagem := (|dadosFiltrados|, |dadosOriginais|);
    }

    /** The `for (var property in filterData)` loop of `filtrarDados`. */
    method Narrow() returns (filteredData: seq<Job>)
      ensures filteredData == SequentialFilter(dadosOriginais, filterData, filterOrder)
    {
      filteredData := dadosOriginais;
      for i := 0 to |filterOrder|
        invariant filteredData == SequentialFilter(dadosOriginais, filterData, filterOrder[..i])
      {
        var property := filterOrder[i];
        assert filterOrder[..i + 1][..i] == filterOrder[..i];
        if property in filterData {
          var selectedValues := filterData[property];
          if selectedValues.Values? && |selectedValues.values| > 0 {
            filteredData := Filter(filteredData, Selected(selectedValues.values, property));
          }
        }
      }
      assert filterOrder[..|filterOrder|] == filterOrder;
    }

    /**
     * `updateFilters`, with `selected(p)` the values of the options selected
     * in the select of property `p`: every property's entry is replaced as
     * `SelectionFor` says, then the list is filtered again.
     */
    method UpdateFilters(selected: string -> seq<string>) returns (threw: bool)
      requires Valid() && selectsBuilt
      modifies this`filterData, this`dadosFiltrados, this`totalLinks, this`paginaAtual, this`contagem, this`container, this`clickable
      ensures Valid() && Shown() && selectsBuilt
      ensures filterData == UpdatedFilterData(old(filterData), filterProperties, selected, filterOptions)
      ensures dadosFiltrados == FilterJobs(dadosOriginais, filterData)
      ensures threw <==> !DatesShow(PageSlice(dadosFiltrados, CardsPorPagina, 1))
    {
      StoreSelections(selected);
      threw := FiltrarDados();
    }

    /** The `filterProperties.forEach` loop of `updateFilters`. */
    method StoreSelections(selected: string -> seq<string>)
      requires FiltersReady() && selectsBuilt
      modifies this`filterData
      ensures FiltersReady() && selectsBuilt
      ensures filterData == UpdatedFilterData(old(filterData), filterProperties, selected, filterOptions)
    {
      for i := 0 to |filterProperties|
        invariant filterData == UpdatedFilterData(old(filterData), filterProperties[..i], selected, filterOptions)
      {
        UpdatedFilterDataStep(old(filterData), filterProperties, i, selected, filterOptions);
        var property := filterProperties[i];
        var selectedValues := selected(property);
        if SelectAll in selectedValues {
          filterData := filterData[property := Values(OptionValuesOf(filterOptions, property))];
        } else {
          filterData := filterData[property := if |selectedValues| > 0 then Values(selectedValues) else Null];
        }
      }
      assert filterProperties[..|filterProperties|] == filterProperties;
      UpdatedKeys(old(filterData), filterProperties, selected, filterOptions);
    }

    /** `limparTodosOsFiltros`: every entry is set to `null`, so the filtered list is the whole list again. */
    method LimparTodosOsFiltros() returns (threw: bool)
      requires Valid() && selectsBuilt
      modifies this`filterData, this`dadosFiltrados, this`totalLinks, this`paginaAtual, this`contagem, this`container, this`clickable
      ensures Valid() && Shown() && selectsBuilt
      ensures filterData == ClearedFilterData(old(filterData), filterProperties)
      ensures dadosFiltrados == dadosOriginais
      ensures container == RenderCards(PageSlice(dadosOriginais, CardsPorPagina, 1), clicked)
      ensures threw <==> !DatesShow(PageSlice(dadosOriginais, CardsPorPagina, 1))
    {
      ClearSelections();
      ClearedKeepsAll(dadosOriginais, old(filterData), filterProperties);
      threw := FiltrarDados();
    }

    /** The `filterProperties.forEach` loop of `limparTodosOsFiltros`. */
    method ClearSelections()
      requires FiltersReady() && selectsBuilt
      modifies this`filterData
      ensures FiltersReady() && selectsBuilt
      ensures filterData == ClearedFilterData(old(filterData), filterProperties)
    {
      for i := 0 to |filterProperties|
        invariant filterData == ClearedFilterData(old(filterData), filterProperties[..i])
      {
        ClearedFilterDataStep(old(filterData), filterProperties, i);
        filterData := filterData[filterProperties[i] := Null];
      }
      assert filterProperties[..|filterProperties|] == filterProperties;
      ClearedKeys(old(filterData), filterProperties);
    }

    /**
     * A click on the card at position `k`, whose listener is bound: its id is
     * recorded as clicked and page 1 is shown again with that card marked.
     */
    method OnCardClick(k: nat) returns (threw: bool)
      requires Valid() && Shown() && clickable && k < |container|
      modifies this`clicked, this`container, this`clickable
      ensures Valid() && Shown()
      ensures clicked == old(clicked) + {Get(old(container)[k].job, "id")}
      ensures container == RenderCards(PageSlice(dadosFiltrados, CardsPorPagina, 1), clicked)
      ensures !threw && clickable
    {
      clicked := clicked + {Get(container[k].job, "id")};
      assert Valid() && DatesShow(PageSlice(dadosFiltrados, CardsPorPagina, paginaAtual));
      threw := ExibirCards(paginaAtual);
    }
  }
}
