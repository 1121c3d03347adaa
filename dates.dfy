/** Lists of dates read from JSON: the comprehension
    `[datetime.strptime(x, '%Y-%m-%d') for x in xs]` and `max` over its result. */
module Dates {
  import opened Py
  import opened Json
  import opened Calendar

  /** An element the comprehension turns into a date. */
  predicate IsDateString(x: Json) {
    x.JStr? && Parse(x.s).Ok?
  }

  /** Index of the first element that is not a date string, or `|xs|`. */
  function FirstNonDate(xs: seq<Json>): (i: nat)
    ensures i <= |xs|
    ensures forall k :: 0 <= k < i ==> IsDateString(xs[k])
    ensures i < |xs| ==> !IsDateString(xs[i])
  {
    if xs == [] || !IsDateString(xs[0]) then 0 else 1 + FirstNonDate(xs[1..])
  }

  /** The comprehension, evaluated left to right: the first element that is
      not a string raises TypeError, the first string that is not a date
      raises ValueError. */
  function StrptimeEach(xs: seq<Json>): (r: Result<seq<PyDate>>)
    ensures r.Ok? <==> FirstNonDate(xs) == |xs|
    ensures r.Ok? ==> |r.value| == |xs| && forall i :: 0 <= i < |xs| ==> Parse(xs[i].s) == Ok(r.value[i])
    ensures r.Err? ==> r.exc == (if xs[FirstNonDate(xs)].JStr? then ValueError else TypeError)
  {
    if xs == [] then Ok([])
    else if !xs[0].JStr? then Err(TypeError)
    else
      var d :- Parse(xs[0].s);
      var ds :- StrptimeEach(xs[1..]);
      Ok([d] + ds)
  }

  /** Every element is a date string exactly when the comprehension succeeds. */
  lemma StrptimeEachOk(xs: seq<Json>)
    ensures StrptimeEach(xs).Ok? <==> forall i :: 0 <= i < |xs| ==> IsDateString(xs[i])
  {
  }

  /** `max(ds)` over a non-empty list: the latest date in it. */
  function Latest(ds: seq<PyDate>): (m: PyDate)
    requires |ds| > 0
    ensures m in ds
    ensures forall i :: 0 <= i < |ds| ==> NotAfter(ds[i], m)
  {
    if |ds| == 1 then ds[0]
    else
      var rest := Latest(ds[1..]);
      assert forall i :: 1 <= i < |ds| ==> ds[i] == ds[1..][i - 1];
      if Before(rest, ds[0]) then ds[0] else rest
  }

  /** The latest date is the only member of the list that no member follows,
      so the order of the list does not matter. */
  lemma LatestUnique(ds: seq<PyDate>, m: PyDate)
    requires |ds| > 0 && m in ds
    requires forall i :: 0 <= i < |ds| ==> NotAfter(ds[i], m)
    ensures m == Latest(ds)
  {
    var l := Latest(ds);
    var i :| 0 <= i < |ds| && ds[i] == l;
    var j :| 0 <= j < |ds| && ds[j] == m;
    assert NotAfter(ds[j], l) && NotAfter(ds[i], m);
  }

  lemma LatestPermutation(ds: seq<PyDate>, es: seq<PyDate>)
    requires |ds| > 0 && multiset(ds) == multiset(es)
    ensures |es| == |ds|
    ensures Latest(ds) == Latest(es)
  {
    assert |multiset(es)| == |multiset(ds)|;
    var m := Latest(es);
    assert m in multiset(ds);
    forall i | 0 <= i < |ds|
      ensures NotAfter(ds[i], m)
    {
      assert ds[i] in multiset(es);
      var j :| 0 <= j < |es| && es[j] == ds[i];
    }
    LatestUnique(ds, m);
  }
}
