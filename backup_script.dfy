/**
 * The first card page, `_backup/script.js`: 240 cards per page, no filters,
 * and a card that shows a job's title, level and category.
 */
module BackupScript {
  import opened Js
  import opened JsArrays
  import opened Paging

  const CardsPorPagina := 240

  /** A card: the job's `title`, `level` and `category` as string concatenation renders them. */
  datatype TextCard = TextCard(title: string, level: string, category: string)

  function TextCardFor(item: Job): TextCard
  {
    TextCard(ToString(Get(item, "title")), ToString(Get(item, "level")), ToString(Get(item, "category")))
  }

  /** The cards of `items`, one per job, in order. */
  function TextCards(items: seq<Job>): seq<TextCard>
  {
    seq(|items|, k requires 0 <= k < |items| => TextCardFor(items[k]))
  }

  /** The closure state of the `$.getJSON` callback. */
  class CardPage {
    const dadosOriginais: seq<Job>
    var dadosFiltrados: seq<Job>
    var paginaAtual: int
    var totalLinks: nat
    /** The cards in `#cards-container`. */
    var container: seq<TextCard>

    /**
     * The `$.getJSON` callback for the loaded array `data`: the filtered
     * list is the loaded list itself, the link count is worked out and
     * page 1 is shown.
     */
    constructor Load(data: seq<Job>)
      ensures dadosOriginais == data && dadosFiltrados == data && paginaAtual == 1
      ensures totalLinks == CeilDiv(|data|, CardsPorPagina)
      ensures container == TextCards(PageSlice(data, CardsPorPagina, 1))
      ensures |container| == Min(CardsPorPagina, |data|)
    {
      dadosOriginais := data;
      dadosFiltrados := data;
      paginaAtual := 1;
      totalLinks := CeilDiv(|data|, CardsPorPagina);
      container := [];
      new;
      var _ := ExibirCards(paginaAtual);
    }

    /**
     * `exibirCards(pagina)`: the container is emptied and the loop from
     * `(pagina - 1) * 240` up to `pagina * 240`, stopped at the end of the
     * list, appends a card per job.  From page 1 on it shows the page's
     * slice, as many cards as the list has from the page's first index, in
     * index order; before page 1 the first index is negative, the job read
     * there is `undefined` and reading its `title` throws.
     */
    method ExibirCards(pagina: int) returns (threw: bool)
      modifies this`container
      ensures pagina >= 1 ==> !threw && container == TextCards(PageSlice(dadosFiltrados, CardsPorPagina, pagina))
      ensures pagina >= 1 ==>
        |container| == Max(0, Min(pagina * CardsPorPagina, |dadosFiltrados|) - (pagina - 1) * CardsPorPagina)
      ensures pagina < 1 ==> threw && container == []
    {
      container := [];
      var startIndex := (pagina - 1) * CardsPorPagina;
      var endIndex := startIndex + CardsPorPagina;
      ghost var items := Slice(dadosFiltrados, startIndex, endIndex);
      if startIndex >= 0 {
        SliceElements(dadosFiltrados, startIndex, endIndex);
      }
      var i := startIndex;
      ghost var j := 0;
      while i < endIndex
        invariant startIndex <= i <= endIndex && j == i - startIndex
        invariant startIndex < 0 ==> i == startIndex && container == []
        invariant startIndex >= 0 ==> j <= |items| && container == TextCards(items[..j])
      {
        if i >= |dadosFiltrados| {
          break;
        }
        if i < 0 {
          return true;
        }
        var item := dadosFiltrados[i];
        assert item == items[j];
        assert items[..j + 1] == items[..j] + [item];
        container := container + [TextCardFor(item)];
        i, j := i + 1, j + 1;
      }
      if startIndex >= 0 {
        TakeAll(items);
      }
      return false;
    }
  }
}
