/**
 * The card page of `_backup/modificadoscript.js`: 100 cards per page, more
 * pages appended as the user scrolls to the bottom, and one multi-select
 * filter per job property whose options are the property's distinct values
 * sorted with `localeCompare`.
 */
module ModificadoScript {
  import opened Js
  import opened JsArrays
  import opened Paging
  import opened Ids
  import opened Options
  import opened Filtering
  import opened Cards

  const CardsPorPagina := 100

  /** The properties that get a filter select, in the order the selects are built. */
  const FilterProperties := ["company", "company_type", "level", "category", "remote?", "affirmative?", "temporary?"]

  /** What the cards container holds: a card, or the "Sem novos cards" message. */
  datatype Entry = Shown(card: Card) | SemNovosCards

  function AsEntries(cards: seq<Card>): seq<Entry>
  {
    if cards == [] then [] else [Shown(cards[0])] + AsEntries(cards[1..])
  }

  /** Each card becomes one entry, in order. */
  lemma {:induction false} AsEntriesShown(cards: seq<Card>)
    ensures |AsEntries(cards)| == |cards|
    ensures forall i :: 0 <= i < |cards| ==> AsEntries(cards)[i] == Shown(cards[i])
  {
    if cards != [] {
      AsEntriesShown(cards[1..]);
    }
  }

  lemma {:induction false} AsEntriesAppend(a: seq<Card>, b: seq<Card>)
    ensures AsEntries(a + b) == AsEntries(a) + AsEntries(b)
  {
    if a != [] {
      assert (a + b)[1..] == a[1..] + b;
      AsEntriesAppend(a[1..], b);
    } else {
      assert a + b == b;
    }
  }

  /** A rendering loop at position `i` whose job's date shows appends that job's card entry. */
  lemma EntriesStep(items: seq<Job>, i: nat, clicked: set<Value>)
    requires i < |items| && DatesShow(items[..i]) && DateShows(items[i])
    ensures DatesShow(items[..i + 1])
    ensures AsEntries(RenderCards(items[..i + 1], clicked))
         == AsEntries(RenderCards(items[..i], clicked)) + [Shown(CardFor(items[i], clicked))]
  {
    RenderCardsStep(items, i, clicked);
    AsEntriesAppend(RenderCards(items[..i], clicked), [CardFor(items[i], clicked)]);
  }

  /**
   * What `exibirCards(pagina, append)` adds to the container from `list`:
   * the cards of the page's slice, or the "Sem novos cards" message when the
   * slice is empty.
   */
  function PageEntries(list: seq<Job>, pagina: int, clicked: set<Value>): seq<Entry>
  {
    var sliced := PageSlice(list, CardsPorPagina, pagina);
    if |sliced| == 0 then [SemNovosCards] else AsEntries(RenderCards(sliced, clicked))
  }

  /**
   * Page `pagina` (from 1) shows the message alone exactly when it lies past
   * the last page; otherwise it shows at most 100 cards, the jobs
   * `[(pagina-1)*100, pagina*100)` of the list in order, and no message.
   */
  lemma PageEntriesShape(list: seq<Job>, pagina: int, clicked: set<Value>)
    requires pagina >= 1
    ensures PageEntries(list, pagina, clicked) == [SemNovosCards] <==> pagina > CeilDiv(|list|, CardsPorPagina)
    ensures pagina <= CeilDiv(|list|, CardsPorPagina) ==>
      var page := list[(pagina - 1) * CardsPorPagina..Min(pagina * CardsPorPagina, |list|)];
      && |page| <= CardsPorPagina
      && SemNovosCards !in PageEntries(list, pagina, clicked)
      && PageEntries(list, pagina, clicked) == AsEntries(RenderCards(page, clicked))
  {
    PageSliceRange(list, CardsPorPagina, pagina);
    PageEmptyIffPastEnd(list, CardsPorPagina, pagina);
    var sliced := PageSlice(list, CardsPorPagina, pagina);
    if |sliced| > 0 {
      var r := RenderCards(sliced, clicked);
      AsEntriesShown(r);
      if r == [] {
        RenderCardsPrefix(sliced, clicked);
      }
      assert SemNovosCards !in AsEntries(r);
    }
  }

  /** The entries of the first `k` pages, each appended below the one before. */
  function ScrolledEntries(list: seq<Job>, k: nat, clicked: set<Value>): seq<Entry>
  {
    if k == 0 then [] else ScrolledEntries(list, k - 1, clicked) + PageEntries(list, k, clicked)
  }

  /** Scrolling once more appends the next page's entries. */
  lemma ScrolledEntriesNext(list: seq<Job>, k: nat, clicked: set<Value>)
    ensures ScrolledEntries(list, k + 1, clicked) == ScrolledEntries(list, k, clicked) + PageEntries(list, k + 1, clicked)
  {
  }

  /**
   * The click listeners after `cardsContainer.find('.col-span-1').click(...)`:
   * one on every card in the container; the "Sem novos cards" message is not
   * a card and gets none.
   */
  function BindAll(entries: seq<Entry>): seq<bool>
  {
    seq(|entries|, i requires 0 <= i < |entries| => entries[i].Shown?)
  }

  /** `n` entries added without a listener. */
  function Unbound(n: nat): seq<bool>
  {
    seq(n, _ => false)
  }

  /**
   * The listeners once `exibirCards(pagina)` has emptied the container and
   * shown page `pagina` of `list`: bound on every card when the page is not
   * empty and no date on it throws, otherwise on none (the early return for
   * an empty page and a throw both skip the binding).
   */
  ghost function PageListeners(list: seq<Job>, pagina: int, clicked: set<Value>): seq<bool>
  {
    var sliced := PageSlice(list, CardsPorPagina, pagina);
    var entries := PageEntries(list, pagina, clicked);
    if |sliced| > 0 && DatesShow(sliced) then BindAll(entries) else Unbound(|entries|)
  }

  /** Rendering a prefix of a list whose dates all show, cut in two at `lo`. */
  lemma PrefixEntries(list: seq<Job>, lo: nat, hi: nat, clicked: set<Value>)
    requires lo <= hi <= |list| && DatesShow(list)
    ensures AsEntries(RenderCards(list[..hi], clicked))
         == AsEntries(RenderCards(list[..lo], clicked)) + AsEntries(RenderCards(list[lo..hi], clicked))
  {
    assert list[..hi] == list[..lo] + list[lo..hi];
    assert DatesShow(list[..lo]) by {
      forall i | 0 <= i < lo ensures DateShows(list[..lo][i]) {
        assert list[..lo][i] == list[i];
      }
    }
    RenderCardsAppend(list[..lo], list[lo..hi], clicked);
    AsEntriesAppend(RenderCards(list[..lo], clicked), RenderCards(list[lo..hi], clicked));
  }

  /** Page `pagina`, up to the last page, starts inside the list and ends at or after its start. */
  lemma PageBounds(n: nat, pagina: nat)
    requires 1 <= pagina <= CeilDiv(n, CardsPorPagina)
    ensures (pagina - 1) * CardsPorPagina < n
    ensures (pagina - 1) * CardsPorPagina <= Min(pagina * CardsPorPagina, n)
  {
  }

  /** The entries of pages 1 to `k` are the cards of the first `k * 100` jobs, in order. */
  ghost predicate ShowsPrefix(list: seq<Job>, k: nat, clicked: set<Value>)
  {
    ScrolledEntries(list, k, clicked) == AsEntries(RenderCards(list[..Min(k * CardsPorPagina, |list|)], clicked))
  }

  /** Scrolling to page `k` appends that page's jobs to the jobs of the pages before it. */
  lemma ScrollStep(list: seq<Job>, k: nat, clicked: set<Value>)
    requires 1 <= k <= CeilDiv(|list|, CardsPorPagina)
    requires DatesShow(list)
    requires ShowsPrefix(list, k - 1, clicked)
    ensures ShowsPrefix(list, k, clicked)
  {
    PageBounds(|list|, k);
    var lo, hi := (k - 1) * CardsPorPagina, Min(k * CardsPorPagina, |list|);
    assert Min(lo, |list|) == lo;
    assert PageEntries(list, k, clicked) == AsEntries(RenderCards(list[lo..hi], clicked)) by {
      PageEntriesShape(list, k, clicked);
    }
    PrefixEntries(list, lo, hi, clicked);
  }

  /**
   * Scrolling through pages 1 to `k`, up to the last page, lists the first
   * `k * 100` jobs in order, each once, when their dates all show.
   */
  lemma ScrollingShowsPrefix(list: seq<Job>, k: nat, clicked: set<Value>)
    requires k <= CeilDiv(|list|, CardsPorPagina)
    requires DatesShow(list)
    ensures ScrolledEntries(list, k, clicked) == AsEntries(RenderCards(list[..Min(k * CardsPorPagina, |list|)], clicked))
  {
    var j := 0;
    assert list[..0] == [];
    while j < k
      invariant j <= k
      invariant ShowsPrefix(list, j, clicked)
    {
      j := j + 1;
      ScrollStep(list, j, clicked);
    }
  }

  /**
   * The `filterProperties.forEach` loop of `createFilterContainers` that
   * builds the selects: each property gets the option list of its values
   * and an entry `null` in `filterData`.
   */
  method CreateFilterSelects(lib: Lib, originais: seq<Job>, properties: seq<string>)
    returns (options: map<string, seq<Value>>, selections: FilterData)
    ensures options == OptionLists(lib, originais, properties)
    ensures selections == ClearedFilterData(map[], properties)
  {
    options, selections := map[], map[];
    for i := 0 to |properties|
      invariant options == OptionLists(lib, originais, properties[..i])
      invariant selections == ClearedFilterData(map[], properties[..i])
    {
      OptionListsStep(lib, originais, properties, i);
      ClearedFilterDataStep(map[], properties, i);
      var property := properties[i];
      options := options[property := FilterValues(lib, originais, property)];
      selections := selections[property := Null];
    }
    assert properties[..|properties|] == properties;
  }

  /**
   * The page's state: the variables of the `$.getJSON` callback and of
   * `createFilterContainers`.  The loaded jobs and the option lists are
   * fixed once the callback has built them.
   */
  class JobBoard {
    /** The library functions the page calls. */
    const lib: Lib
    /** The `filterProperties` argument of `createFilterContainers`. */
    const filterProperties: seq<string>
    const dadosOriginais: seq<Job>
    /** The values each filter select was built from. */
    const filterOptions: map<string, seq<Value>>
    var dadosFiltrados: seq<Job>
    var paginaAtual: int
    /** `totalLinks`, an implicit global that the first call of `filtrarDados` creates. */
    var totalLinks: Option<nat>
    /** The numbers in the "Quantidade de Vagas: filtradas/total" text, once `filtrarDados` has written it. */
    var contagem: Option<(nat, nat)>
    var filterData: FilterData
    /** The ids `localStorage` records as clicked (`card_<id>` set to `'true'`). */
    var clicked: set<Value>
    var container: seq<Entry>
    /** Which entries of the container have the click listener, position by position. */
    var bound: seq<bool>

    /** The state once the selects are built, whatever the filtered list. */
    ghost predicate Loaded()
      reads this`paginaAtual, this`filterData
    {
      && paginaAtual >= 1
      && filterData.Keys == (set p | p in filterProperties)
      && filterOptions == OptionLists(lib, dadosOriginais, filterProperties)
    }

    /** A listener is attached to a card only, one flag per container entry. */
    ghost predicate Bindings()
      reads this`container, this`bound
    {
      && |bound| == |container|
      && forall i :: 0 <= i < |bound| && bound[i] ==> container[i].Shown?
    }

    /** The filtered list, the link count and the counts shown agree with the selections. */
    ghost predicate Valid()
      reads this`paginaAtual, this`filterData, this`dadosFiltrados, this`totalLinks, this`contagem
    {
      && Loaded()
      && dadosFiltrados == FilterJobs(dadosOriginais, filterData)
      && (totalLinks.Some? ==> totalLinks.value == CeilDiv(|dadosFiltrados|, CardsPorPagina))
      && (contagem.Some? ==> contagem.value == (|dadosFiltrados|, |dadosOriginais|))
    }

    /**
     * The `$.getJSON` callback for the loaded `data`, with `visited` the ids
     * `localStorage` already records as clicked: ids are assigned, every
     * filter select is built with its entry in `filterData` set to `null`,
     * and page 1 is shown.
     */
    constructor Load(lib: Lib, data: seq<Job>, visited: set<Value>)
      ensures Valid()
      ensures this.lib == lib && filterProperties == FilterProperties
      ensures dadosOriginais == AssignIds(data) && dadosFiltrados == dadosOriginais
      ensures paginaAtual == 1 && totalLinks == None && contagem == None && clicked == visited
      ensures filterData == ClearedFilterData(map[], filterProperties)
      ensures filterOptions == OptionLists(lib, dadosOriginais, filterProperties)
      ensures container == PageEntries(dadosFiltrados, 1, clicked)
      ensures bound == PageListeners(dadosFiltrados, 1, clicked) && Bindings()
    {
      this.lib := lib;
      var properties := FilterProperties;
      filterProperties := properties;
      var originais := AssignIds(data);
      dadosOriginais := originais;
      dadosFiltrados := originais;
      var options, selections := CreateFilterSelects(lib, originais, properties);
      filterOptions, filterData := options, selections;
      paginaAtual := 1;
      totalLinks := None;
      contagem := None;
      clicked := visited;
      container := [];
      bound := [];
      new;
      ShowFirstPage();
    }

    /**
     * The initial `atualizarExibicao()` of the callback: `exibirCards(1)` on
     * the unfiltered list, every selection `null`, `totalLinks` and the count
     * text still unset.
     */
    method ShowFirstPage()
      requires paginaAtual == 1 && totalLinks == None && contagem == None && dadosFiltrados == dadosOriginais
      requires filterData == ClearedFilterData(map[], filterProperties)
      requires filterOptions == OptionLists(lib, dadosOriginais, filterProperties)
      modifies this`container, this`bound
      ensures Valid()
      ensures container == PageEntries(dadosFiltrados, 1, clicked)
      ensures bound == PageListeners(dadosFiltrados, 1, clicked) && Bindings()
    {
      ClearedKeys(map[], filterProperties);
      ClearedKeepsAll(dadosOriginais, map[], filterProperties);
      assert Valid();
      var _ := ExibirCards(paginaAtual, false);
    }

    /**
     * `exibirCards(pagina, append)`: the container, emptied first unless
     * appending, receives the page's entries; `threw` tells that a card's date
     * made `formatarData` throw, which ends the rendering at that card.
     * The click listener is bound to every card in the container only when
     * the page had jobs and none threw; otherwise the entries added have none
     * and those already there keep theirs.
     */
    method ExibirCards(pagina: int, append: bool) returns (threw: bool)
      modifies this`container, this`bound
      ensures container == (if append then old(container) else []) + PageEntries(dadosFiltrados, pagina, clicked)
      ensures threw <==> !DatesShow(PageSlice(dadosFiltrados, CardsPorPagina, pagina))
      ensures append ==>
                bound == if |PageSlice(dadosFiltrados, CardsPorPagina, pagina)| > 0 && !threw then BindAll(container)
                         else old(bound) + Unbound(|PageEntries(dadosFiltrados, pagina, clicked)|)
      ensures !append ==> bound == PageListeners(dadosFiltrados, pagina, clicked)
      ensures (append ==> old(Bindings())) ==> Bindings()
    {
      var start := (pagina - 1) * CardsPorPagina;
      var end := start + CardsPorPagina;
      var sliced := Slice(dadosFiltrados, start, end);
      assert sliced == PageSlice(dadosFiltrados, CardsPorPagina, pagina);
      if !append {
        container, bound := [], [];
      }
      if |sliced| == 0 {
        container, bound := container + [SemNovosCards], bound + Unbound(1);
        return false;
      }
      threw := RenderAndBind(sliced);
    }

    /**
     * The cards of a page with jobs appended, then the listener bound to
     * every card unless a date threw.
     */
    method RenderAndBind(items: seq<Job>) returns (threw: bool)
      modifies this`container, this`bound
      ensures container == old(container) + AsEntries(RenderCards(items, clicked))
      ensures threw <==> !DatesShow(items)
      ensures bound == if !threw then BindAll(container) else old(bound) + Unbound(|AsEntries(RenderCards(items, clicked))|)
      ensures old(Bindings()) || !threw ==> Bindings()
    {
      var shown := |container|;
      threw := AppendCards(items);
      if threw {
        bound := bound + Unbound(|container| - shown);
      } else {
        bound := BindAll(container);
      }
    }

    /**
     * `slicedData.forEach(...)`: a card for each job appended to the
     * container, until a job's date makes `formatarData` throw.
     */
    method AppendCards(items: seq<Job>) returns (threw: bool)
      modifies this`container
      ensures container == old(container) + AsEntries(RenderCards(items, clicked))
      ensures threw <==> !DatesShow(items)
    {
      for i := 0 to |items|
        invariant DatesShow(items[..i])
        invariant container == old(container) + AsEntries(RenderCards(items[..i], clicked))
      {
        var item := items[i];
        if !DateShows(item) {
          RenderCardsStop(items, i, clicked);
          return true;
        }
        EntriesStep(items, i, clicked);
        container := container + [Shown(CardFor(item, clicked))];
      }
      assert items[..|items|] == items;
      return false;
    }

    /**
     * `filtrarDados`: the originals that pass every selection become the
     * filtered list, the link count and the counts shown are recomputed, and
     * page 1 is shown again.
     */
    method FiltrarDados() returns (threw: bool)
      requires Loaded()
      modifies this`dadosFiltrados, this`totalLinks, this`paginaAtual, this`contagem, this`container, this`bound
      ensures Valid()
      ensures dadosFiltrados == FilterJobs(dadosOriginais, filterData)
      ensures totalLinks == Some(CeilDiv(|dadosFiltrados|, CardsPorPagina))
      ensures paginaAtual == 1
      ensures contagem == Some((|dadosFiltrados|, |dadosOriginais|))
      ensures container == PageEntries(dadosFiltrados, 1, clicked) == ScrolledEntries(dadosFiltrados, 1, clicked)
      ensures bound == PageListeners(dadosFiltrados, 1, clicked) && Bindings()
      ensures threw <==> !DatesShow(PageSlice(dadosFiltrados, CardsPorPagina, 1))
    {
      dadosFiltrados := FilterJobs(dadosOriginais, filterData);
      totalLinks := Some(CeilDiv(|dadosFiltrados|, CardsPorPagina));
      paginaAtual := 1;
      contagem := Some((|dadosFiltrados|, |dadosOriginais|));
      assert Loaded();
      assert Valid();
      threw := ExibirCards(paginaAtual, false);
      assert ScrolledEntries(dadosFiltrados, 1, clicked) == [] + PageEntries(dadosFiltrados, 1, clicked);
    }

    /**
     * `updateFilters`, with `selected(p)` the values of the options selected
     * in the select of property `p`: every property's entry is replaced as
     * `SelectionFor` says, then the list is filtered again.
     */
    method UpdateFilters(selected: string -> seq<string>) returns (threw: bool)
      requires Valid()
      modifies this`filterData, this`dadosFiltrados, this`totalLinks, this`paginaAtual, this`contagem, this`container, this`bound
      ensures Valid()
      ensures filterData == UpdatedFilterData(old(filterData), filterProperties, selected, filterOptions)
      ensures dadosFiltrados == FilterJobs(dadosOriginais, filterData)
      ensures totalLinks == Some(CeilDiv(|dadosFiltrados|, CardsPorPagina)) && paginaAtual == 1
      ensures container == PageEntries(dadosFiltrados, 1, clicked)
      ensures bound == PageListeners(dadosFiltrados, 1, clicked) && Bindings()
      ensures threw <==> !DatesShow(PageSlice(dadosFiltrados, CardsPorPagina, 1))
    {
      StoreSelections(selected);
      threw := FiltrarDados();
    }

    /** The `filterProperties.forEach` loop of `updateFilters`. */
    method StoreSelections(selected: string -> seq<string>)
      requires Loaded()
      modifies this`filterData
      ensures Loaded()
      ensures filterData == UpdatedFilterData(old(filterData), filterProperties, selected, filterOptions)
    {
      for i := 0 to |filterProperties|
        invariant filterData == UpdatedFilterData(old(filterData), filterProperties[..i], selected, filterOptions)
      {
        UpdatedFilterDataStep(old(filterData), filterProperties, i, selected, filterOptions);
        var property := filterProperties[i];
        var selectedValues := selected(property);
        if SelectAll in selectedValues {
          filterData := filterData[property := Values(OptionValuesOf(filterOptions, property))];
        } else {
          filterData := filterData[property := if |selectedValues| > 0 then Values(selectedValues) else Null];
        }
      }
      assert filterProperties[..|filterProperties|] == filterProperties;
      UpdatedKeys(old(filterData), filterProperties, selected, filterOptions);
    }

    /** `limparTodosOsFiltros`: every entry is set to `null`, so the filtered list is the whole list again. */
    method LimparTodosOsFiltros() returns (threw: bool)
      requires Valid()
      modifies this`filterData, this`dadosFiltrados, this`totalLinks, this`paginaAtual, this`contagem, this`container, this`bound
      ensures Valid()
      ensures filterData == ClearedFilterData(old(filterData), filterProperties)
      ensures dadosFiltrados == dadosOriginais
      ensures totalLinks == Some(CeilDiv(|dadosOriginais|, CardsPorPagina)) && paginaAtual == 1
      ensures container == PageEntries(dadosOriginais, 1, clicked)
      ensures bound == PageListeners(dadosOriginais, 1, clicked) && Bindings()
      ensures threw <==> !DatesShow(PageSlice(dadosOriginais, CardsPorPagina, 1))
    {
      ClearSelections();
      ClearedKeepsAll(dadosOriginais, old(filterData), filterProperties);
      threw := FiltrarDados();
    }

    /** The `filterProperties.forEach` loop of `limparTodosOsFiltros`. */
    method ClearSelections()
      requires Loaded()
      modifies this`filterData
      ensures Loaded()
      ensures filterData == ClearedFilterData(old(filterData), filterProperties)
    {
      for i := 0 to |filterProperties|
        invariant filterData == ClearedFilterData(old(filterData), filterProperties[..i])
      {
        ClearedFilterDataStep(old(filterData), filterProperties, i);
        filterData := filterData[filterProperties[i] := Null];
      }
      assert filterProperties[..|filterProperties|] == filterProperties;
      ClearedKeys(old(filterData), filterProperties);
    }

    /**
     * The scroll handler at the bottom of the page: the next page is appended
     * below the cards shown, so a container showing pages 1 to `paginaAtual`
     * goes on showing pages 1 to `paginaAtual + 1`.
     */
    method OnScrollToBottom() returns (threw: bool)
      requires Valid() && Bindings()
      modifies this`paginaAtual, this`container, this`bound
      ensures Valid() && Bindings()
      ensures paginaAtual == old(paginaAtual) + 1
      ensures container == old(container) + PageEntries(dadosFiltrados, paginaAtual, clicked)
      ensures bound ==
        if |PageSlice(dadosFiltrados, CardsPorPagina, paginaAtual)| > 0 && !threw then BindAll(container)
        else old(bound) + Unbound(|PageEntries(dadosFiltrados, paginaAtual, clicked)|)
      ensures threw <==> !DatesShow(PageSlice(dadosFiltrados, CardsPorPagina, paginaAtual))
    {
      paginaAtual := paginaAtual + 1;
      assert Valid() && Bindings();
      threw := ExibirCards(paginaAtual, true);
    }

    /**
     * A click on the card at position `k` of the container, which has the
     * listener: its id is recorded as clicked and the current page is shown
     * again, replacing every page shown so far.  A card without the
     * listener ignores the click.
     */
    method OnCardClick(k: nat) returns (threw: bool)
      requires Valid() && Bindings()
      requires k < |bound| && bound[k]
      modifies this`clicked, this`container, this`bound
      ensures Valid() && Bindings()
      ensures clicked == old(clicked) + {Get(old(container)[k].card.job, "id")}
      ensures container == PageEntries(dadosFiltrados, paginaAtual, clicked)
      ensures bound == PageListeners(dadosFiltrados, paginaAtual, clicked)
      ensures threw <==> !DatesShow(PageSlice(dadosFiltrados, CardsPorPagina, paginaAtual))
    {
      clicked := clicked + {Get(container[k].card.job, "id")};
      threw := ExibirCards(paginaAtual, false);
    }
  }
}
