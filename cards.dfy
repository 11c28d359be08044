/**
 * What a card-rendering loop puts on the page.  Each card shows a job, its
 * `inserted_date` through `formatarData`, and whether `localStorage` holds
 * `card_<id>` for it (the ids of the clicked cards).  `formatarData` is
 * called while the card is built, so a job whose date it rejects throws out
 * of the loop: the cards before it stay on the page and no later card is
 * rendered.
 */
module Cards {
  import opened Js
  import opened Dates
  import JsStrings

  datatype Card = Card(job: Job, date: string, clicked: bool)

  /** `formatarData` does not throw on the job's date: a string with at least two dashes. */
  predicate DateShows(job: Job)
  {
    var d := Get(job, "inserted_date");
    d.Str? && JsStrings.Count(d.s, '-') >= 2
  }

  ghost predicate DatesShow(items: seq<Job>)
  {
    forall i :: 0 <= i < |items| ==> DateShows(items[i])
  }

  /** The card built for `job`, given the ids of the clicked cards. */
  function CardFor(job: Job, clicked: set<Value>): Card
    requires DateShows(job)
  {
    Card(job, FormatarData(Get(job, "inserted_date")).value, Get(job, "id") in clicked)
  }

  /**
   * The cards a loop over `items` renders: one per job, in order, up to the
   * first job whose date makes `formatarData` throw.
   */
  function RenderCards(items: seq<Job>, clicked: set<Value>): (r: seq<Card>)
    ensures |r| <= |items|
  {
    if items == [] then []
    else if !DateShows(items[0]) then []
    else [CardFor(items[0], clicked)] + RenderCards(items[1..], clicked)
  }

  /**
   * The rendered cards are the cards of a prefix of `items`, one per job and
   * in order; the prefix ends exactly at the first job whose date does not
   * show, and is the whole list when every date shows.
   */
  lemma {:induction false} RenderCardsPrefix(items: seq<Job>, clicked: set<Value>)
    ensures var r := RenderCards(items, clicked);
      && (forall i :: 0 <= i < |r| ==> DateShows(items[i]) && r[i] == CardFor(items[i], clicked))
      && (|r| < |items| ==> !DateShows(items[|r|]))
      && (|r| == |items| <==> DatesShow(items))
  {
    if items != [] && DateShows(items[0]) {
      RenderCardsPrefix(items[1..], clicked);
      var r := RenderCards(items, clicked);
      var r' := RenderCards(items[1..], clicked);
      assert r == [CardFor(items[0], clicked)] + r';
      forall i | 0 <= i < |r|
        ensures DateShows(items[i]) && r[i] == CardFor(items[i], clicked)
      {
        if i > 0 {
          assert r[i] == r'[i - 1] && items[i] == items[1..][i - 1];
        }
      }
      if DatesShow(items) {
        assert DatesShow(items[1..]) by {
          forall i | 0 <= i < |items[1..]| ensures DateShows(items[1..][i]) {
            assert items[1..][i] == items[i + 1];
          }
        }
      }
      if |r| == |items| {
        forall i | 0 <= i < |items| ensures DateShows(items[i]) {
          if i > 0 {
            assert items[i] == items[1..][i - 1];
          }
        }
      }
    }
  }

  /** A rendered card is marked clicked exactly when its job's id is among the clicked ids. */
  lemma RenderCardsMarks(items: seq<Job>, clicked: set<Value>)
    ensures forall i :: 0 <= i < |RenderCards(items, clicked)| ==>
      (RenderCards(items, clicked)[i].clicked <==> Get(RenderCards(items, clicked)[i].job, "id") in clicked)
  {
    RenderCardsPrefix(items, clicked);
  }

  /** The jobs after the first of a list whose dates all show have dates that show. */
  lemma DatesShowTail(items: seq<Job>)
    requires items != [] && DatesShow(items)
    ensures DateShows(items[0]) && DatesShow(items[1..])
  {
    forall i | 0 <= i < |items[1..]| ensures DateShows(items[1..][i]) {
      assert items[1..][i] == items[i + 1];
    }
  }

  /** Rendering continues past a stretch of jobs whose dates all show. */
  lemma {:induction false} RenderCardsAppend(a: seq<Job>, b: seq<Job>, clicked: set<Value>)
    requires DatesShow(a)
    ensures RenderCards(a + b, clicked) == RenderCards(a, clicked) + RenderCards(b, clicked)
  {
    if a != [] {
      DatesShowTail(a);
      var ab := a + b;
      assert ab != [] && ab[0] == a[0] && ab[1..] == a[1..] + b;
      assert RenderCards(ab, clicked) == [CardFor(a[0], clicked)] + RenderCards(a[1..] + b, clicked);
      RenderCardsAppend(a[1..], b, clicked);
    } else {
      assert a + b == b;
    }
  }

  /** A rendering loop at position `i` whose job's date shows appends that job's card. */
  lemma RenderCardsStep(items: seq<Job>, i: nat, clicked: set<Value>)
    requires i < |items| && DatesShow(items[..i]) && DateShows(items[i])
    ensures DatesShow(items[..i + 1])
    ensures RenderCards(items[..i + 1], clicked) == RenderCards(items[..i], clicked) + [CardFor(items[i], clicked)]
  {
    assert items[..i + 1] == items[..i] + [items[i]];
    RenderCardsAppend(items[..i], [items[i]], clicked);
    var pre := items[..i + 1];
    forall k | 0 <= k < |pre| ensures DateShows(pre[k]) {
      if k < i {
        assert pre[k] == items[..i][k];
      }
    }
  }

  /** A rendering loop at position `i` whose job's date throws has rendered all it ever will. */
  lemma RenderCardsStop(items: seq<Job>, i: nat, clicked: set<Value>)
    requires i < |items| && DatesShow(items[..i]) && !DateShows(items[i])
    ensures !DatesShow(items)
    ensures RenderCards(items, clicked) == RenderCards(items[..i], clicked)
  {
    assert items == items[..i] + items[i..];
    RenderCardsAppend(items[..i], items[i..], clicked);
  }
}
