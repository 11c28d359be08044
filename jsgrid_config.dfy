/**
 * The table page of `_backup/jsgrid-config.js`: the item lists of the
 * select columns, and the controller's `loadData`, which keeps the jobs
 * whose ten columns all accept the grid's filter row.
 */
module JsgridConfig {
  import opened Js
  import opened JsArrays
  import opened Options
  import JsStrings

  /** An entry of a select column: `{ Value: item, Name: item }`. */
  datatype Item = Item(value: Value, name: Value)

  /** The ten columns of the grid, in the order `loadData` checks them. */
  const Fields: seq<string> := ["title", "company", "company_type", "location", "remote?",
    "affirmative?", "temporary?", "category", "level", "inserted_date"]

  /** Mapping the jobs one element longer appends that job's value. */
  lemma FieldValuesSnoc(jobs: seq<Job>, field: string, i: nat)
    requires i < |jobs|
    ensures FieldValues(jobs[..i + 1], field) == FieldValues(jobs[..i], field) + [Get(jobs[i], field)]
  {
  }

  /**
   * The `forEach` of `getUniqueItems`: a job's value is pushed when the array
   * does not include it yet, which keeps each value at its first occurrence,
   * as a `Set` does.
   */
  method CollectValues(jobs: seq<Job>, field: string) returns (values: seq<Value>)
    ensures values == Distinct(FieldValues(jobs, field))
  {
    values := [];
    for i := 0 to |jobs|
      invariant values == Distinct(FieldValues(jobs[..i], field))
    {
      FieldValuesSnoc(jobs, field, i);
      if Get(jobs[i], field) !in values {
        values := values + [Get(jobs[i], field)];
      }
    }
    TakeAll(jobs);
  }

  /** The `Value` of each item. */
  function ItemValues(items: seq<Item>): (r: seq<Value>)
    ensures |r| == |items| && forall k :: 0 <= k < |items| ==> r[k] == items[k].value
  {
    seq(|items|, k requires 0 <= k < |items| => items[k].value)
  }

  /**
   * `getUniqueItems(jobs, field)`: the collected values are sorted with
   * `localeCompare`, `""` is put in front and every value becomes an item
   * naming itself.  The result is the empty item followed by the field's
   * distinct values, sorted, each once.
   */
  method GetUniqueItems(lib: Lib, jobs: seq<Job>, field: string) returns (items: seq<Item>)
    ensures |items| == |Distinct(FieldValues(jobs, field))| + 1
    ensures items[0] == Item(Str(""), Str(""))
    ensures forall k :: 0 <= k < |items| ==> items[k].name == items[k].value
    ensures ItemValues(items[1..]) == FilterValues(lib, jobs, field)
    ensures NoDuplicates(ItemValues(items[1..]))
    ensures forall v :: v in ItemValues(items[1..]) <==> exists i :: 0 <= i < |jobs| && Get(jobs[i], field) == v
  {
    var values := CollectValues(jobs, field);
    var sorted := Sort(lib, values);
    assert |sorted| == |multiset(values)| == |values|;
    var named := seq(|sorted|, k requires 0 <= k < |sorted| => Item(sorted[k], sorted[k]));
    items := [Item(Str(""), Str(""))] + named;
    assert items[1..] == named;
    assert ItemValues(named) == sorted;
    FilterValuesDistinct(lib, jobs, field);
  }

  /** `s.toUpperCase()`; the empty string stays empty. */
  function Upper(lib: Lib, s: string): string
  {
    if s == "" then "" else lib.toUpperCase(s)
  }

  /**
   * The value `loadData`'s `reduce` copies for a property: a value `isNaN`
   * rejects becomes `(v || "").toUpperCase()`, any other is kept.
   */
  function NormalizeValue(lib: Lib, v: Value): (r: Value)
    ensures !IsNaN(lib, v) ==> r == v
    ensures IsNaN(lib, v) ==> r.Str?
    ensures IsNaN(lib, v) && !Truthy(v) ==> r == Str("")
    ensures IsNaN(lib, v) && v.Str? ==> r == Str(Upper(lib, v.s))
    ensures v.Str? ==> r.Str?
  {
    if IsNaN(lib, v) then Str(if Truthy(v) then Upper(lib, v.s) else "") else v
  }

  /**
   * `Object.keys(group).reduce(function (o, k) { ... }, {})` over the keys in
   * the order `keys` lists them: starting from `{}`, each key in turn gets
   * its normalised value in `o`.
   */
  function NormalizeReduce(lib: Lib, job: Job, keys: seq<string>): (o: Job)
    ensures o.Keys == set k | k in keys
    ensures forall i :: 0 <= i < |keys| ==> o[keys[i]] == NormalizeValue(lib, Get(job, keys[i]))
  {
    if keys == [] then map[]
    else
      var k := keys[|keys| - 1];
      NormalizeReduce(lib, job, keys[..|keys| - 1])[k := NormalizeValue(lib, Get(job, k))]
  }

  /** The copy of a job the `reduce` builds: the same properties, each value normalised. */
  function NormalizeJob(lib: Lib, job: Job): (r: Job)
    ensures r.Keys == job.Keys
    ensures forall k :: k in job ==> r[k] == NormalizeValue(lib, job[k])
  {
    map k | k in job :: NormalizeValue(lib, job[k])
  }

  /**
   * Whatever order `Object.keys` lists a job's properties in, the `reduce`
   * builds the same copy: `NormalizeJob`.
   */
  lemma ReduceIsNormalizeJob(lib: Lib, job: Job, keys: seq<string>)
    requires forall k :: k in job <==> k in keys
    ensures NormalizeReduce(lib, job, keys) == NormalizeJob(lib, job)
  {
  }

  /**
   * `verifyIndex(arrayItem, arrayFilter)`: `false` when the value is missing
   * or the filter is missing or empty; when either does not read as a
   * number, the position of the upper-cased, accent-stripped filter in the
   * accent-stripped value (a TypeError when the value is not a string);
   * otherwise 0 or -1 after comparing `!!arrayItem == arrayFilter`.
   */
  function VerifyIndex(lib: Lib, item: Value, filter: Value): (r: Outcome<Value>)
    ensures r.Ok? ==> r.value == Bool(false) || r.value.Num?
    ensures r.TypeError? ==> !item.Str? && item != Undefined
  {
    if item == Undefined || filter == Undefined || filter == Str("") then Ok(Bool(false))
    else if IsNaN(lib, item) || IsNaN(lib, filter) then
      if !item.Str? then TypeError
      else
        var itemStripped := lib.stripDiacritics(item.s);
        var filterStripped := if filter.Str? then lib.stripDiacritics(filter.s) else "";
        Ok(Num(JsStrings.IndexOf(itemStripped, Upper(lib, filterStripped))))
    else if LooseEqualsBool(lib, Truthy(item), filter) then Ok(Num(0))
    else Ok(Num(-1))
  }

  /** `r != -1` for what `verifyIndex` returns: `false` is the number 0. */
  predicate NotMinusOne(r: Value)
  {
    r != Num(-1)
  }

  /** `verifyIndex(newJobs[field], filter[field]) != -1`, or the TypeError it throws. */
  function FieldCheck(lib: Lib, normalized: Job, filter: map<string, Value>, field: string): Outcome<bool>
  {
    match VerifyIndex(lib, Get(normalized, field), Get(filter, field))
    case TypeError => TypeError
    case Ok(r) => Ok(NotMinusOne(r))
  }

  /**
   * The checks of `fields` joined by `&`: every check is evaluated (`&` does
   * not short-circuit), and any of them throwing makes the whole throw.
   */
  function Checks(lib: Lib, normalized: Job, filter: map<string, Value>, fields: seq<string>): Outcome<bool>
  {
    if fields == [] then Ok(true)
    else
      match FieldCheck(lib, normalized, filter, fields[0])
      case TypeError => TypeError
      case Ok(b) =>
        match Checks(lib, normalized, filter, fields[1..])
        case TypeError => TypeError
        case Ok(c) => Ok(b && c)
  }

  /** The `$.grep` callback of `loadData` for one job. */
  function JobPasses(lib: Lib, job: Job, filter: map<string, Value>): Outcome<bool>
  {
    Checks(lib, NormalizeJob(lib, job), filter, Fields)
  }

  /** The `$.grep` callback of `loadData` as a function of the job. */
  function Callback(lib: Lib, filter: map<string, Value>): Job -> Outcome<bool>
  {
    job => JobPasses(lib, job, filter)
  }

  /** The test a callback applies when it returns: the element is kept on `true`. */
  function Passing<T>(callback: T -> Outcome<bool>): T -> bool
  {
    x => callback(x) == Ok(true)
  }

  /** `$.grep(s, callback)`: the elements the callback keeps, in order; a throwing callback throws out of it. */
  function Grep<T>(s: seq<T>, callback: T -> Outcome<bool>): Outcome<seq<T>>
  {
    if s == [] then Ok([])
    else
      match callback(s[0])
      case TypeError => TypeError
      case Ok(b) =>
        match Grep(s[1..], callback)
        case TypeError => TypeError
        case Ok(rest) => Ok((if b then [s[0]] else []) + rest)
  }

  /** `loadData(filter)`: `$.grep` over the loaded jobs with the column checks. */
  function LoadData(lib: Lib, jobs: seq<Job>, filter: map<string, Value>): Outcome<seq<Job>>
  {
    Grep(jobs, Callback(lib, filter))
  }

  /**
   * `$.grep` returns without throwing exactly when the callback throws on no
   * element, and then returns the elements the callback keeps, in order.
   */
  lemma {:induction false} GrepFilters<T>(s: seq<T>, callback: T -> Outcome<bool>)
    ensures Grep(s, callback).Ok? <==> forall i :: 0 <= i < |s| ==> callback(s[i]).Ok?
    ensures Grep(s, callback).Ok? ==> Grep(s, callback).value == Filter(s, Passing(callback))
  {
    if s != [] {
      GrepFilters(s[1..], callback);
      assert forall i :: 1 <= i < |s| ==> s[i] == s[1..][i - 1];
    }
  }

  /**
   * The joined checks accept a job exactly when every single check returns
   * something other than -1, and throw exactly when one of them throws.
   */
  lemma {:induction false} ChecksAll(lib: Lib, normalized: Job, filter: map<string, Value>, fields: seq<string>)
    ensures Checks(lib, normalized, filter, fields).Ok? <==>
      forall i :: 0 <= i < |fields| ==> FieldCheck(lib, normalized, filter, fields[i]).Ok?
    ensures Checks(lib, normalized, filter, fields) == Ok(true) <==>
      forall i :: 0 <= i < |fields| ==> FieldCheck(lib, normalized, filter, fields[i]) == Ok(true)
  {
    if fields != [] {
      ChecksAll(lib, normalized, filter, fields[1..]);
      assert forall i :: 1 <= i < |fields| ==> fields[i] == fields[1..][i - 1];
    }
  }

  /**
   * `loadData` returns without throwing exactly when no job's callback
   * throws, and then returns the jobs the filter row accepts, in their
   * order.
   */
  lemma LoadDataFilters(lib: Lib, jobs: seq<Job>, filter: map<string, Value>)
    ensures LoadData(lib, jobs, filter).Ok? <==> forall i :: 0 <= i < |jobs| ==> JobPasses(lib, jobs[i], filter).Ok?
    ensures LoadData(lib, jobs, filter).Ok? ==>
      LoadData(lib, jobs, filter).value == Filter(jobs, Passing(Callback(lib, filter)))
  {
    GrepFilters(jobs, Callback(lib, filter));
  }

  /**
   * A column whose filter is missing or empty, or whose value the job does
   * not have, accepts the job: `verifyIndex` returns `false`, and `false` is
   * not -1.
   */
  lemma UnsetColumnAccepts(lib: Lib, job: Job, filter: map<string, Value>, field: string)
    requires field !in job || Get(filter, field) == Undefined || Get(filter, field) == Str("")
    ensures VerifyIndex(lib, Get(NormalizeJob(lib, job), field), Get(filter, field)) == Ok(Bool(false))
    ensures FieldCheck(lib, NormalizeJob(lib, job), filter, field) == Ok(true)
  {
  }

  /** An empty filter row (every column missing or `""`) gives back every loaded job. */
  lemma EmptyFilterKeepsAll(lib: Lib, jobs: seq<Job>, filter: map<string, Value>)
    requires forall f :: f in Fields ==> Get(filter, f) == Undefined || Get(filter, f) == Str("")
    ensures LoadData(lib, jobs, filter) == Ok(jobs)
  {
    forall i | 0 <= i < |jobs|
      ensures JobPasses(lib, jobs[i], filter) == Ok(true)
    {
      forall k | 0 <= k < |Fields|
        ensures FieldCheck(lib, NormalizeJob(lib, jobs[i]), filter, Fields[k]) == Ok(true)
      {
        UnsetColumnAccepts(lib, jobs[i], filter, Fields[k]);
      }
      ChecksAll(lib, NormalizeJob(lib, jobs[i]), filter, Fields);
    }
    LoadDataFilters(lib, jobs, filter);
    FilterKeepsAll(jobs, Passing(Callback(lib, filter)));
  }

  /**
   * A text filter that does not read as a number accepts a string value
   * exactly when the filter, accents stripped and upper-cased, occurs in the
   * value as the `reduce` normalised it, accents stripped.
   */
  lemma TextColumnMatches(lib: Lib, job: Job, filter: map<string, Value>, field: string, f: string)
    requires field in job && job[field].Str?
    requires Get(filter, field) == Str(f) && f != "" && lib.isNaN(f)
    ensures var s := job[field].s;
      var normalized := if lib.isNaN(s) then Upper(lib, s) else s;
      FieldCheck(lib, NormalizeJob(lib, job), filter, field) ==
        Ok(JsStrings.IsSubstring(Upper(lib, lib.stripDiacritics(f)), lib.stripDiacritics(normalized)))
  {
  }

  /** When every loaded value is a string, no filter row makes `loadData` throw. */
  lemma StringJobsNeverThrow(lib: Lib, jobs: seq<Job>, filter: map<string, Value>)
    requires forall i, k :: 0 <= i < |jobs| && k in jobs[i] ==> jobs[i][k].Str?
    ensures LoadData(lib, jobs, filter).Ok?
  {
    forall i | 0 <= i < |jobs|
      ensures JobPasses(lib, jobs[i], filter).Ok?
    {
      var normalized := NormalizeJob(lib, jobs[i]);
      forall k | 0 <= k < |Fields|
        ensures FieldCheck(lib, normalized, filter, Fields[k]).Ok?
      {
        var item := Get(normalized, Fields[k]);
        assert item.Str? || item == Undefined;
      }
      ChecksAll(lib, normalized, filter, Fields);
    }
    LoadDataFilters(lib, jobs, filter);
  }
}
