/**
 * The multi-select field filter of the card pages: `filterData` maps each
 * filter property to `null` (no constraint) or to the array of option values
 * selected in its `<select multiple>`; a job is kept when, for every
 * property with a non-empty selection, its value for that property is one of
 * the selected values (AND across properties, OR within one).
 */
module Filtering {
  import opened Js
  import opened JsArrays

  /** The special option value that stands for "select every option". */
  const SelectAll := "__select_all__"

  /** One entry of `filterData`: `null`, or the selected option values. */
  datatype Selection = Null | Values(values: seq<string>)

  type FilterData = map<string, Selection>

  /** `values.includes(v)`: only a string equal to a selected option value is found. */
  predicate Includes(values: seq<string>, v: Value)
  {
    v.Str? && v.s in values
  }

  /** `selectedValues && selectedValues.length > 0`. */
  predicate Constrains(sel: Selection)
  {
    sel.Values? && |sel.values| > 0
  }

  /** The job is not rejected by the selection made for `property`. */
  predicate PassesProperty(job: Job, property: string, sel: Selection)
  {
    !(Constrains(sel) && !Includes(sel.values, Get(job, property)))
  }

  /** The callback `filtrarDados` gives to `dadosOriginais.filter`. */
  predicate Keep(job: Job, fd: FilterData)
  {
    forall p :: p in fd ==> PassesProperty(job, p, fd[p])
  }

  /** `dadosOriginais.filter(item => ...)` in `filtrarDados`. */
  function FilterJobs(jobs: seq<Job>, fd: FilterData): seq<Job>
  {
    Filter(jobs, job => Keep(job, fd))
  }

  /**
   * The filtered list is an order-preserving subsequence of the jobs; it
   * holds every job that passes (as often as it occurs) and no other; and a
   * job in it has, for each property with a non-empty selection, a string
   * value among the selected ones (a job without the property never passes).
   */
  lemma FilterJobsKeepsExactlyMatches(jobs: seq<Job>, fd: FilterData)
    ensures IsSubsequence(FilterJobs(jobs, fd), jobs)
    ensures forall job :: multiset(FilterJobs(jobs, fd))[job] == if Keep(job, fd) then multiset(jobs)[job] else 0
    ensures forall job, p :: job in FilterJobs(jobs, fd) && p in fd && Constrains(fd[p]) ==>
      Get(job, p).Str? && Get(job, p).s in fd[p].values
  {
    FilterIsSubsequence(jobs, job => Keep(job, fd));
    FilterMembers(jobs, job => Keep(job, fd));
    forall job
      ensures multiset(FilterJobs(jobs, fd))[job] == if Keep(job, fd) then multiset(jobs)[job] else 0
    {
      FilterCounts(jobs, job => Keep(job, fd), job);
    }
  }

  /** With no property constrained (every entry `null` or empty, or no entry at all) nothing is filtered out. */
  lemma UnconstrainedKeepsAll(jobs: seq<Job>, fd: FilterData)
    requires forall p :: p in fd ==> !Constrains(fd[p])
    ensures FilterJobs(jobs, fd) == jobs
  {
    FilterKeepsAll(jobs, job => Keep(job, fd));
  }

  /** `Array.from(filterSelect.options).map(option => option.value)` for options built from `values`. */
  function OptionValues(values: seq<Value>): seq<string>
  {
    seq(|values|, i requires 0 <= i < |values| => ToString(values[i]))
  }

  /** The option values of the select built for `property`, none if it has no select. */
  function OptionValuesOf(options: map<string, seq<Value>>, property: string): seq<string>
  {
    if property in options then OptionValues(options[property]) else []
  }

  /**
   * What `updateFilters` stores for one property: every option value when
   * "__select_all__" is among the selected values, otherwise the selected
   * values, with an empty selection stored as `null`.
   */
  function SelectionFor(selected: seq<string>, optionValues: seq<string>): Selection
  {
    if SelectAll in selected then Values(optionValues)
    else if |selected| > 0 then Values(selected)
    else Null
  }

  /** The new selection constrains a property exactly as the user's selection says. */
  lemma SelectionForFilters(job: Job, property: string, selected: seq<string>, optionValues: seq<string>)
    ensures SelectAll !in selected ==>
      (PassesProperty(job, property, SelectionFor(selected, optionValues)) <==>
       selected == [] || Includes(selected, Get(job, property)))
    ensures SelectAll in selected ==>
      (PassesProperty(job, property, SelectionFor(selected, optionValues)) <==>
       optionValues == [] || Includes(optionValues, Get(job, property)))
  {
  }

  /**
   * "Select all" over the options built from the jobs' values keeps exactly
   * the jobs whose value is a string: the option made for a missing value
   * reads "undefined", which `includes` never matches against `undefined`.
   */
  lemma SelectAllKeepsStringValued(jobs: seq<Job>, property: string, values: seq<Value>, job: Job)
    requires forall j :: j in jobs ==> Get(j, property) in values
    requires job in jobs
    ensures PassesProperty(job, property, Values(OptionValues(values))) <==> Get(job, property).Str?
  {
    var v := Get(job, property);
    var k :| 0 <= k < |values| && values[k] == v;
    assert OptionValues(values)[k] == ToString(v);
    if v.Str? {
      assert v.s in OptionValues(values);
    }
  }

  /** `filterData` after `updateFilters` has visited every property of `properties`. */
  function UpdatedFilterData(fd: FilterData, properties: seq<string>, selected: string -> seq<string>,
                             options: map<string, seq<Value>>): FilterData
  {
    fd + map p | p in properties :: SelectionFor(selected(p), OptionValuesOf(options, p))
  }

  /** `updateFilters` visits one property more: only that property's entry changes. */
  lemma UpdatedFilterDataStep(fd: FilterData, properties: seq<string>, i: nat, selected: string -> seq<string>,
                              options: map<string, seq<Value>>)
    requires i < |properties|
    ensures UpdatedFilterData(fd, properties[..i + 1], selected, options)
         == UpdatedFilterData(fd, properties[..i], selected, options)[properties[i] := SelectionFor(selected(properties[i]), OptionValuesOf(options, properties[i]))]
  {
    assert properties[..i + 1] == properties[..i] + [properties[i]];
  }

  /** `updateFilters` gives an entry to each property it visits and keeps the others. */
  lemma UpdatedKeys(fd: FilterData, properties: seq<string>, selected: string -> seq<string>, options: map<string, seq<Value>>)
    ensures UpdatedFilterData(fd, properties, selected, options).Keys == fd.Keys + set p | p in properties
  {
  }

  /** `filterData` after `limparTodosOsFiltros` has set every property of `properties` to `null`. */
  function ClearedFilterData(fd: FilterData, properties: seq<string>): FilterData
  {
    fd + map p | p in properties :: Null
  }

  /** `limparTodosOsFiltros` visits one property more: only that property's entry changes. */
  lemma ClearedFilterDataStep(fd: FilterData, properties: seq<string>, i: nat)
    requires i < |properties|
    ensures ClearedFilterData(fd, properties[..i + 1]) == ClearedFilterData(fd, properties[..i])[properties[i] := Null]
  {
    assert properties[..i + 1] == properties[..i] + [properties[i]];
  }

  /** Clearing gives an entry to each property it visits and keeps the others. */
  lemma ClearedKeys(fd: FilterData, properties: seq<string>)
    ensures ClearedFilterData(fd, properties).Keys == fd.Keys + set p | p in properties
  {
  }

  /** Once every property is cleared, filtering keeps every job. */
  lemma ClearedKeepsAll(jobs: seq<Job>, fd: FilterData, properties: seq<string>)
    requires forall p :: p in fd ==> p in properties
    ensures FilterJobs(jobs, ClearedFilterData(fd, properties)) == jobs
  {
    UnconstrainedKeepsAll(jobs, ClearedFilterData(fd, properties));
  }

  /** Adding `null` entries to an empty `filterData` filters nothing more out. */
  lemma ClearingNothingKeepsFilter(jobs: seq<Job>, properties: seq<string>)
    ensures FilterJobs(jobs, ClearedFilterData(map[], properties)) == FilterJobs(jobs, map[])
  {
    ClearedKeepsAll(jobs, map[], properties);
    UnconstrainedKeepsAll(jobs, map[]);
  }

  /** The job passes the selection of every property of `keys` that has an entry. */
  predicate PassesEach(job: Job, fd: FilterData, keys: seq<string>)
  {
    forall j :: 0 <= j < |keys| ==> keys[j] !in fd || PassesProperty(job, keys[j], fd[keys[j]])
  }

  /** `function (item) { return selectedValues.includes(item[property]); }` */
  function Selected(values: seq<string>, property: string): Job -> bool
  {
    item => Includes(values, Get(item, property))
  }

  /**
   * `for (var property in filterData)` narrowing a copy of the jobs one
   * property at a time, with `keys` the properties of `filterData` in the
   * order they were added: a property with a non-empty selection keeps the
   * jobs whose value it includes, any other leaves the list as it is.
   */
  function SequentialFilter(jobs: seq<Job>, fd: FilterData, keys: seq<string>): seq<Job>
  {
    if keys == [] then jobs
    else
      var narrowed := SequentialFilter(jobs, fd, keys[..|keys| - 1]);
      var property := keys[|keys| - 1];
      if property in fd && Constrains(fd[property]) then
        Filter(narrowed, Selected(fd[property].values, property))
      else narrowed
  }

  /** Narrowing one property at a time keeps exactly the jobs that pass every property visited. */
  lemma {:induction false} SequentialFilterPassesEach(jobs: seq<Job>, fd: FilterData, keys: seq<string>)
    ensures SequentialFilter(jobs, fd, keys) == Filter(jobs, job => PassesEach(job, fd, keys))
  {
    if keys == [] {
      FilterKeepsAll(jobs, job => PassesEach(job, fd, keys));
    } else {
      var init, property := keys[..|keys| - 1], keys[|keys| - 1];
      SequentialFilterPassesEach(jobs, fd, init);
      var before := job => PassesEach(job, fd, init);
      var after := job => PassesEach(job, fd, keys);
      if property in fd && Constrains(fd[property]) {
        var inc := Selected(fd[property].values, property);
        forall i | 0 <= i < |jobs|
          ensures after(jobs[i]) == (before(jobs[i]) && inc(jobs[i]))
        {
          PassesEachSnoc(jobs[i], fd, keys);
        }
        FilterTwice(jobs, before, inc, after);
      } else {
        forall i | 0 <= i < |jobs|
          ensures before(jobs[i]) == after(jobs[i])
        {
          PassesEachSnoc(jobs[i], fd, keys);
        }
        FilterAgrees(jobs, before, after);
      }
    }
  }

  /** Passing every property of `keys` is passing those before the last, and the last. */
  lemma PassesEachSnoc(job: Job, fd: FilterData, keys: seq<string>)
    requires keys != []
    ensures var p := keys[|keys| - 1];
      PassesEach(job, fd, keys) <==> PassesEach(job, fd, keys[..|keys| - 1]) && (p !in fd || PassesProperty(job, p, fd[p]))
  {
    var init := keys[..|keys| - 1];
    if PassesEach(job, fd, init) && (keys[|keys| - 1] !in fd || PassesProperty(job, keys[|keys| - 1], fd[keys[|keys| - 1]])) {
      forall j | 0 <= j < |keys| ensures keys[j] !in fd || PassesProperty(job, keys[j], fd[keys[j]]) {
        if j < |init| {
          assert keys[j] == init[j];
        }
      }
    }
    if PassesEach(job, fd, keys) {
      forall j | 0 <= j < |init| ensures init[j] !in fd || PassesProperty(job, init[j], fd[init[j]]) {
        assert init[j] == keys[j];
      }
    }
  }

  /**
   * When `keys` lists every property of `filterData`, narrowing one property
   * at a time gives the same list as the single `filter` over all of them.
   */
  lemma SequentialFilterIsFilterJobs(jobs: seq<Job>, fd: FilterData, keys: seq<string>)
    requires forall p :: p in fd ==> p in keys
    ensures SequentialFilter(jobs, fd, keys) == FilterJobs(jobs, fd)
  {
    SequentialFilterPassesEach(jobs, fd, keys);
    forall i | 0 <= i < |jobs|
      ensures PassesEach(jobs[i], fd, keys) == Keep(jobs[i], fd)
    {
      if PassesEach(jobs[i], fd, keys) {
        forall p | p in fd ensures PassesProperty(jobs[i], p, fd[p]) {
          var j :| 0 <= j < |keys| && keys[j] == p;
        }
      }
    }
    FilterAgrees(jobs, job => PassesEach(job, fd, keys), job => Keep(job, fd));
  }
}
