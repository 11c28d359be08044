/** Positional ids: each loaded job gets `id = index + 1`. */
module Ids {
  import opened Js

  /**
   * `data.map((item, index) => { item.id = index + 1; return item; })`:
   * the jobs in load order, each with its `id` property set to its 1-based
   * position and every other property as loaded.
   */
  function AssignIds(data: seq<Job>): (r: seq<Job>)
    ensures |r| == |data|
    ensures forall i :: 0 <= i < |r| ==> Get(r[i], "id") == Num(i + 1)
    ensures forall i, k :: 0 <= i < |r| && k != "id" ==> Get(r[i], k) == Get(data[i], k)
    ensures forall i :: 0 <= i < |r| ==> r[i].Keys == data[i].Keys + {"id"}
  {
    seq(|data|, i requires 0 <= i < |data| => data[i]["id" := Num(i + 1)])
  }

  /** No two loaded jobs share an id, and the ids are exactly the numbers 1 to `data.length`. */
  lemma IdsAreUniqueAndDense(data: seq<Job>)
    ensures forall i, j :: 0 <= i < j < |data| ==> Get(AssignIds(data)[i], "id") != Get(AssignIds(data)[j], "id")
    ensures (set i | 0 <= i < |data| :: Get(AssignIds(data)[i], "id")) == (set n | 1 <= n <= |data| :: Num(n))
  {
    var r := AssignIds(data);
    forall n | 1 <= n <= |data|
      ensures Num(n) in set i | 0 <= i < |data| :: Get(r[i], "id")
    {
      assert Get(r[n - 1], "id") == Num(n);
    }
  }
}
