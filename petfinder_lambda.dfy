/** The Petfinder Lambda (petfinder_lambda/lambda_function.py): the listing
    requests built from the configured JSON mapping, the day an animal was
    published, and the per-month count of published animals. */
module PetfinderLambda {
  import opened Py
  import opened Json
  import opened Calendar
  import opened PetfinderRequest
  import opened RequestMapping

  // ---------------------------------------------------------------------------
  // create_pf_requests

  /** The request objects hold these fields. */
  ghost predicate Hold(requests: seq<PetfinderApiRequest>, fields: seq<RequestFields>)
    reads requests
  {
    |requests| == |fields|
    && forall i :: 0 <= i < |requests| ==>
         requests[i].name == fields[i].name && requests[i].category == fields[i].id
         && requests[i].parameters == fields[i].parameters
  }

  lemma HoldAppend(requests: seq<PetfinderApiRequest>, fields: seq<RequestFields>, request: PetfinderApiRequest, f: RequestFields)
    requires Hold(requests, fields)
    requires request.name == f.name && request.category == f.id && request.parameters == f.parameters
    ensures Hold(requests + [request], fields + [f])
  {
  }

  /** `create_pf_requests`: builds the request objects in a loop over the
      mapping's items, appending each one; the category is the entry's
      `'category'`. */
  method CreatePfRequests(requestsJson: Json) returns (r: Result<seq<PetfinderApiRequest>>)
    ensures r.Ok? <==> MappingFields(requestsJson, "category").Ok?
    ensures r.Err? ==> r.exc == MappingFields(requestsJson, "category").exc
    ensures r.Ok? ==> Hold(r.value, MappingFields(requestsJson, "category").value)
    ensures !requestsJson.JObj? ==> r == Err(AttributeError)
    ensures requestsJson.JObj? && r.Err? ==> FirstFailure(requestsJson.fields, "category", r.exc)
  {
    if !requestsJson.JObj? {
      return Err(AttributeError);
    }
    var entries := requestsJson.fields;
    var pfRequests: seq<PetfinderApiRequest> := [];
    ghost var done: seq<RequestFields> := [];
    var i := 0;
    PrependStart(entries, "category");
    while i < |entries|
      invariant 0 <= i <= |entries|
      invariant EntriesFields(entries, "category") == Prepend(done, EntriesFields(entries[i..], "category"))
      invariant Hold(pfRequests, done)
    {
      var entry := entries[i];
      PrependStep(done, entries, "category", i);
      var requestCategory := Subscript(entry.1, "category");
      if requestCategory.Err? {
        MappingFailsAt(requestsJson, "category", done, i, requestCategory.exc);
        return Err(requestCategory.exc);
      }
      var requestParams := GetOr(entry.1, "parameters", JObj([]));
      if !requestParams.value.JObj? {
        MappingFailsAt(requestsJson, "category", done, i, TypeError);
        return Err(TypeError);
      }
      var newRequest := new PetfinderApiRequest(entry.0, requestCategory.value, ToMap(requestParams.value.fields));
      ghost var fields := RequestFields(entry.0, requestCategory.value, ToMap(requestParams.value.fields));
      assert EntryFields(entry, "category") == Ok(fields);
      HoldAppend(pfRequests, done, newRequest, fields);
      pfRequests := pfRequests + [newRequest];
      done := done + [fields];
      i := i + 1;
    }
    PrependEnd(done, entries, "category");
    return Ok(pfRequests);
  }

  // ---------------------------------------------------------------------------
  // published_at_str_into_datetime

  /** `published_at_str_into_datetime`: `re.match(r'([^T]+)T', s)` keeps the
      non-empty text before the first `T`, which `strptime` then reads as a
      `'%Y-%m-%d'` date at midnight. Without a match `.group` is looked up on
      None (AttributeError); `re.match` on anything but a string raises
      TypeError. */
  function PublishedAtStrIntoDatetime(publishedAt: Json): (r: Result<DateTime>)
    ensures !publishedAt.JStr? ==> r == Err(TypeError)
    ensures publishedAt.JStr? && ('T' !in publishedAt.s || publishedAt.s[0] == 'T') ==> r == Err(AttributeError)
    ensures r.Ok? ==> exists i :: 0 < i < |publishedAt.s| && publishedAt.s[i] == 'T' && 'T' !in publishedAt.s[..i]
                                 && Parse(publishedAt.s[..i]) == Ok(r.value.date) && r.value == AtMidnight(r.value.date)
    ensures r.Err? ==> r.exc in {TypeError, AttributeError, ValueError}
    ensures publishedAt.JStr? && 0 < IndexOf(publishedAt.s, 'T') < |publishedAt.s| ==>
              var prefix := publishedAt.s[..IndexOf(publishedAt.s, 'T')];
              r == (if Parse(prefix).Ok? then Ok(AtMidnight(Parse(prefix).value)) else Err(ValueError))
  {
    match publishedAt
    case JStr(s) =>
      var i := IndexOf(s, 'T');
      if i == |s| || i == 0 then Err(AttributeError)
      else
        assert 'T' !in s[..i];
        var date :- Parse(s[..i]);
        Ok(AtMidnight(date))
    case _ => Err(TypeError)
  }

  /** A Petfinder timestamp (`2024-01-05T10:00:00+0000`) gives its calendar
      day, whatever follows the `T`. */
  lemma PublishedAtOfTimestamp(d: PyDate, timeOfDay: string)
    ensures PublishedAtStrIntoDatetime(JStr(Format(d) + "T" + timeOfDay)) == Ok(AtMidnight(d))
  {
    var s := Format(d) + "T" + timeOfDay;
    assert s[10] == 'T';
    assert 'T' !in s[..10] by {
      assert s[..10] == Format(d);
    }
    assert IndexOf(s, 'T') == 10;
    assert s[..10] == Format(d);
    ParseFormat(d);
  }

  // ---------------------------------------------------------------------------
  // count_animals_by_date

  /** The day `animal['published_at']` names. */
  function PublishedDay(animal: Json): (r: Result<PyDate>)
    ensures !animal.JObj? ==> r == Err(TypeError)
    ensures animal.JObj? && !HasKey(animal, "published_at") ==> r == Err(KeyError)
    ensures animal.JObj? && HasKey(animal, "published_at") ==>
              (r.Ok? <==> PublishedAtStrIntoDatetime(Subscript(animal, "published_at").value).Ok?)
              && (r.Err? ==> r.exc == PublishedAtStrIntoDatetime(Subscript(animal, "published_at").value).exc)
    ensures r.Ok? ==> PublishedAtStrIntoDatetime(Subscript(animal, "published_at").value) == Ok(AtMidnight(r.value))
  {
    var publishedAt :- Subscript(animal, "published_at");
    var t :- PublishedAtStrIntoDatetime(publishedAt);
    Ok(t.date)
  }

  /** The two keys `count_animals_by_date` files a day under: `'%Y-%m'`
      and `'%d'`. */
  datatype Stamp = Stamp(monthYear: string, day: string)

  /** The keys of the day `animal['published_at']` names. */
  function PublishedStamp(animal: Json): (r: Result<Stamp>)
    ensures r.Ok? <==> PublishedDay(animal).Ok?
    ensures r.Ok? ==> r.value == Stamp(FormatMonth(PublishedDay(animal).value), FormatDay(PublishedDay(animal).value))
  {
    var d :- PublishedDay(animal);
    Ok(Stamp(FormatMonth(d), FormatDay(d)))
  }

  /** What each animal gives, in order. */
  function Outcomes(animals: seq<Json>): (r: seq<Result<Stamp>>)
    ensures |r| == |animals| && forall i :: 0 <= i < |animals| ==> r[i] == PublishedStamp(animals[i])
  {
    seq(|animals|, i requires 0 <= i < |animals| => PublishedStamp(animals[i]))
  }

  /** The keys in order, or the first failure. */
  function AllStamps(outcomes: seq<Result<Stamp>>): (r: Result<seq<Stamp>>)
    ensures r.Ok? <==> forall i :: 0 <= i < |outcomes| ==> outcomes[i].Ok?
    ensures r.Ok? ==> |r.value| == |outcomes| && forall i :: 0 <= i < |outcomes| ==> outcomes[i] == Ok(r.value[i])
    decreases |outcomes|
  {
    if outcomes == [] then Ok([])
    else
      var n := |outcomes| - 1;
      assert forall i :: 0 <= i < n ==> outcomes[..n][i] == outcomes[i];
      var before :- AllStamps(outcomes[..n]);
      var stamp :- outcomes[n];
      Ok(before + [stamp])
  }

  /** The dict `count_animals_by_date` builds, as written: the first animal
      of a month sets the `'YYYY-MM'` key to 1; for a second one
      `day in dates_data[month_year]` tests membership in an int, which
      raises TypeError. */
  function TallyAsWritten(outcomes: seq<Result<Stamp>>): (r: Result<map<string, int>>)
    ensures r.Ok? ==> forall month :: month in r.value ==> r.value[month] == 1
    decreases |outcomes|
  {
    if outcomes == [] then Ok(map[])
    else
      var n := |outcomes| - 1;
      var before :- TallyAsWritten(outcomes[..n]);
      var stamp :- outcomes[n];
      if stamp.monthYear in before then Err(TypeError) else Ok(before[stamp.monthYear := 1])
  }

  /** `count_animals_by_date(json_data)` as written. */
  function CountAsWritten(jsonData: Json): (r: Result<map<string, int>>)
    ensures !jsonData.JObj? ==> r == Err(TypeError)
    ensures jsonData.JObj? && !HasKey(jsonData, "animals") ==> r == Err(KeyError)
    ensures Subscript(jsonData, "animals") == Ok(JList([])) ==> r == Ok(map[])
  {
    var animals :- Subscript(jsonData, "animals");
    var elements :- Elements(animals);
    TallyAsWritten(Outcomes(elements))
  }

  /** One more animal: its failure, a repeated month (TypeError), or a new
      month set to 1. */
  lemma TallyAsWrittenStep(outcomes: seq<Result<Stamp>>, i: nat, datesData: map<string, int>)
    requires i < |outcomes| && TallyAsWritten(outcomes[..i]) == Ok(datesData)
    ensures TallyAsWritten(outcomes[..i + 1])
         == match outcomes[i]
            case Err(e) => Err(e)
            case Ok(stamp) => if stamp.monthYear in datesData then Err(TypeError) else Ok(datesData[stamp.monthYear := 1])
  {
    assert outcomes[..i + 1][..i] == outcomes[..i];
  }

  /** Once a prefix of the animals fails, the whole tally fails the same way. */
  lemma {:induction false} TallyAsWrittenFailurePersists(outcomes: seq<Result<Stamp>>, j: nat)
    requires j <= |outcomes| && TallyAsWritten(outcomes[..j]).Err?
    ensures TallyAsWritten(outcomes) == TallyAsWritten(outcomes[..j])
    decreases |outcomes|
  {
    if j == |outcomes| {
      assert outcomes[..j] == outcomes;
    } else {
      var n := |outcomes| - 1;
      assert outcomes[..n][..j] == outcomes[..j];
      TallyAsWrittenFailurePersists(outcomes[..n], j);
    }
  }

  /** `count_animals_by_date`: a loop over `json_data['animals']` updating
      the `dates_data` dict. */
  method CountAnimalsByDate(jsonData: Json) returns (r: Result<map<string, int>>)
    ensures r == CountAsWritten(jsonData)
  {
    var animals :- Subscript(jsonData, "animals");
    var elements :- Elements(animals);
    ghost var outcomes := Outcomes(elements);
    var datesData: map<string, int> := map[];
    var i := 0;
    assert outcomes[..0] == [];
    while i < |elements|
      invariant 0 <= i <= |elements|
      invariant TallyAsWritten(outcomes[..i]) == Ok(datesData)
    {
      var animal := elements[i];
      TallyAsWrittenStep(outcomes, i, datesData);
      var stamp := PublishedStamp(animal);
      if stamp.Err? {
        TallyAsWrittenFailurePersists(outcomes, i + 1);
        return Err(stamp.exc);
      }
      var monthYear := stamp.value.monthYear;
      if monthYear in datesData {
        TallyAsWrittenFailurePersists(outcomes, i + 1);
        return Err(TypeError);
      }
      datesData := datesData[monthYear := 1];
      i := i + 1;
    }
    assert outcomes[..i] == outcomes;
    return Ok(datesData);
  }

  /** No two of the days fall in the same month. */
  predicate DistinctMonths(stamps: seq<Stamp>) {
    forall i, j :: 0 <= i < j < |stamps| ==> stamps[i].monthYear != stamps[j].monthYear
  }

  /** The months of the days. */
  function MonthsOf(stamps: seq<Stamp>): (ms: set<string>)
    ensures forall i :: 0 <= i < |stamps| ==> stamps[i].monthYear in ms
    ensures forall m :: m in ms ==> exists i :: 0 <= i < |stamps| && stamps[i].monthYear == m
  {
    set i | 0 <= i < |stamps| :: stamps[i].monthYear
  }

  /** The months of the stamps so far and one more. */
  lemma MonthsOfAppend(stamps: seq<Stamp>, stamp: Stamp)
    ensures MonthsOf(stamps + [stamp]) == MonthsOf(stamps) + {stamp.monthYear}
  {
    var all := stamps + [stamp];
    assert forall i :: 0 <= i < |stamps| ==> all[i] == stamps[i];
    assert all[|stamps|] == stamp;
    forall x | x in MonthsOf(all) ensures x in MonthsOf(stamps) + {stamp.monthYear} {
      var i :| 0 <= i < |all| && all[i].monthYear == x;
      if i < |stamps| {
        assert all[i] == stamps[i];
      }
    }
  }

  /** Distinct months stay distinct when a month not among them is added. */
  lemma DistinctMonthsAppend(stamps: seq<Stamp>, stamp: Stamp)
    requires DistinctMonths(stamps) && stamp.monthYear !in MonthsOf(stamps)
    ensures DistinctMonths(stamps + [stamp])
  {
    var all := stamps + [stamp];
    forall i, j | 0 <= i < j < |all| ensures all[i].monthYear != all[j].monthYear {
      assert all[i] == stamps[i];
      if j < |stamps| {
        assert all[j] == stamps[j];
      }
    }
  }

  lemma {:induction false} TallyAsWrittenKeys(outcomes: seq<Result<Stamp>>)
    requires TallyAsWritten(outcomes).Ok?
    ensures AllStamps(outcomes).Ok? && DistinctMonths(AllStamps(outcomes).value)
    ensures TallyAsWritten(outcomes).value.Keys == MonthsOf(AllStamps(outcomes).value)
    ensures forall m :: m in TallyAsWritten(outcomes).value ==> TallyAsWritten(outcomes).value[m] == 1
    decreases |outcomes|
  {
    if outcomes != [] {
      var n := |outcomes| - 1;
      TallyAsWrittenKeys(outcomes[..n]);
      var stamps := AllStamps(outcomes[..n]).value;
      var stamp := outcomes[n].value;
      assert AllStamps(outcomes) == Ok(stamps + [stamp]);
      MonthsOfAppend(stamps, stamp);
      DistinctMonthsAppend(stamps, stamp);
    }
  }

  lemma {:induction false} TallyAsWrittenDistinct(outcomes: seq<Result<Stamp>>)
    requires AllStamps(outcomes).Ok? && DistinctMonths(AllStamps(outcomes).value)
    ensures TallyAsWritten(outcomes).Ok?
    decreases |outcomes|
  {
    if outcomes != [] {
      var n := |outcomes| - 1;
      var stamps := AllStamps(outcomes[..n]).value;
      var all := AllStamps(outcomes).value;
      assert all == stamps + [outcomes[n].value];
      assert forall i :: 0 <= i < n ==> all[i] == stamps[i];
      TallyAsWrittenDistinct(outcomes[..n]);
      TallyAsWrittenKeys(outcomes[..n]);
    }
  }

  lemma {:induction false} TallyAsWrittenRepeat(outcomes: seq<Result<Stamp>>)
    requires AllStamps(outcomes).Ok? && TallyAsWritten(outcomes).Err?
    ensures TallyAsWritten(outcomes) == Err(TypeError)
    decreases |outcomes|
  {
    if outcomes != [] {
      var n := |outcomes| - 1;
      if TallyAsWritten(outcomes[..n]).Err? {
        TallyAsWrittenRepeat(outcomes[..n]);
      }
    }
  }

  /** As written the tally succeeds exactly when every animal has a readable
      day and no two share a month; then each month seen maps to 1. Two
      animals in one month make it raise TypeError. */
  lemma TallyAsWrittenOutcome(outcomes: seq<Result<Stamp>>)
    ensures var t := TallyAsWritten(outcomes); var stamps := AllStamps(outcomes);
      (t.Ok? <==> stamps.Ok? && DistinctMonths(stamps.value))
      && (t.Ok? ==> t.value.Keys == MonthsOf(stamps.value) && forall m :: m in t.value ==> t.value[m] == 1)
      && (stamps.Ok? && !DistinctMonths(stamps.value) ==> t == Err(TypeError))
  {
    if TallyAsWritten(outcomes).Ok? {
      TallyAsWrittenKeys(outcomes);
    } else if AllStamps(outcomes).Ok? {
      TallyAsWrittenRepeat(outcomes);
      if DistinctMonths(AllStamps(outcomes).value) {
        TallyAsWrittenDistinct(outcomes);
      }
    }
  }

  /** Two animals published in the same month make the tally raise. */
  lemma SameMonthFails(first: Stamp, second: Stamp)
    requires first.monthYear == second.monthYear
    ensures TallyAsWritten([Ok(first), Ok(second)]) == Err(TypeError)
  {
    assert [Ok(first), Ok(second)][..1] == [Ok(first)];
    assert [Ok(first)][..0] == [];
    assert TallyAsWritten([Ok(first)]) == Ok(map[first.monthYear := 1]);
  }

  /** One animal listed by its Petfinder timestamp, such as
      `2024-01-05T10:00:00+0000`. */
  function AnimalAt(d: PyDate, timeOfDay: string): Json {
    JObj([("published_at", JStr(Format(d) + "T" + timeOfDay))])
  }

  lemma AnimalAtStamp(d: PyDate, timeOfDay: string)
    ensures PublishedStamp(AnimalAt(d, timeOfDay)) == Ok(Stamp(FormatMonth(d), FormatDay(d)))
  {
    PublishedAtOfTimestamp(d, timeOfDay);
    assert Subscript(AnimalAt(d, timeOfDay), "published_at") == Ok(JStr(Format(d) + "T" + timeOfDay));
  }

  /** A body whose `'animals'` are the given two. */
  function TwoAnimals(first: Json, second: Json): Json {
    JObj([("animals", JList([first, second]))])
  }

  lemma TwoAnimalsOutcomes(first: Json, second: Json)
    ensures Outcomes(Elements(Subscript(TwoAnimals(first, second), "animals").value).value)
         == [PublishedStamp(first), PublishedStamp(second)]
  {
    assert Subscript(TwoAnimals(first, second), "animals") == Ok(JList([first, second]));
  }

  /** As written, two readable animals from the same month, such as
      `AnimalAt(Date(2024, 1, 5), "10:00:00+0000")` and
      `AnimalAt(Date(2024, 1, 20), "08:30:00+0000")`, are not counted: the
      call raises TypeError. */
  lemma TwoAnimalsInOneMonthRaise(first: Json, second: Json)
    requires PublishedStamp(first).Ok? && PublishedStamp(second).Ok?
    requires PublishedStamp(first).value.monthYear == PublishedStamp(second).value.monthYear
    ensures CountAsWritten(TwoAnimals(first, second)) == Err(TypeError)
  {
    TwoAnimalsOutcomes(first, second);
    SameMonthFails(PublishedStamp(first).value, PublishedStamp(second).value);
  }

  /** Listings from one month, such as `2024-01-05T10:00:00+0000` and
      `2024-01-20T08:30:00+0000`, are readable and share their month key;
      their day keys agree exactly when their days do. */
  lemma ListingsInOneMonth(a: PyDate, b: PyDate, timeA: string, timeB: string)
    requires a.year == b.year && a.month == b.month
    ensures var first := PublishedStamp(AnimalAt(a, timeA));
            var second := PublishedStamp(AnimalAt(b, timeB));
            first.Ok? && second.Ok? && first.value.monthYear == second.value.monthYear
            && (first.value.day == second.value.day <==> a.day == b.day)
  {
    AnimalAtStamp(a, timeA);
    AnimalAtStamp(b, timeB);
    KeysOfDates(a, b);
  }

  // ---------------------------------------------------------------------------
  // The per-day count the doc-comment of count_animals_by_date describes:
  // {"yyyy-mm": {"dd": count}}.

  /** One more animal on day `day` of month `monthYear`. */
  function Bump(t: map<string, map<string, int>>, monthYear: string, day: string): (u: map<string, map<string, int>>)
    ensures u.Keys == t.Keys + {monthYear}
    ensures day in u[monthYear] && u[monthYear][day] == (if monthYear in t && day in t[monthYear] then t[monthYear][day] + 1 else 1)
    ensures forall m, d :: m in u && d in u[m] && (m, d) != (monthYear, day) <==> m in t && d in t[m] && (m, d) != (monthYear, day)
    ensures forall m, d :: m in t && d in t[m] && (m, d) != (monthYear, day) ==> u[m][d] == t[m][d]
  {
    if monthYear in t then
      var days := t[monthYear];
      t[monthYear := days[day := if day in days then days[day] + 1 else 1]]
    else t[monthYear := map[day := 1]]
  }

  /** The nested tally: month key, then day key, then the number of animals. */
  function TallyByDay(outcomes: seq<Result<Stamp>>): Result<map<string, map<string, int>>>
    decreases |outcomes|
  {
    if outcomes == [] then Ok(map[])
    else
      var n := |outcomes| - 1;
      var before :- TallyByDay(outcomes[..n]);
      var stamp :- outcomes[n];
      Ok(Bump(before, stamp.monthYear, stamp.day))
  }

  /** How many of the days fall on day `day` of month `monthYear`. */
  function Occurrences(stamps: seq<Stamp>, monthYear: string, day: string): nat
    decreases |stamps|
  {
    if stamps == [] then 0
    else
      var n := |stamps| - 1;
      Occurrences(stamps[..n], monthYear, day) + (if stamps[n] == Stamp(monthYear, day) then 1 else 0)
  }

  /** The corrected count of `json_data['animals']`. */
  function CountAnimalsByDay(jsonData: Json): (r: Result<map<string, map<string, int>>>)
    ensures !jsonData.JObj? ==> r == Err(TypeError)
    ensures jsonData.JObj? && !HasKey(jsonData, "animals") ==> r == Err(KeyError)
  {
    var animals :- Subscript(jsonData, "animals");
    var elements :- Elements(animals);
    TallyByDay(Outcomes(elements))
  }

  /** The nested tally fails only where a day cannot be read, and otherwise
      holds, for every month and day, exactly the number of animals published
      on it; days with no animal have no key. */
  lemma {:induction false} TallyByDayCounts(outcomes: seq<Result<Stamp>>)
    ensures TallyByDay(outcomes).Ok? <==> AllStamps(outcomes).Ok?
    ensures TallyByDay(outcomes).Ok? ==>
      var t := TallyByDay(outcomes).value;
      forall m, d :: Occurrences(AllStamps(outcomes).value, m, d) == (if m in t && d in t[m] then t[m][d] else 0)
    decreases |outcomes|
  {
    if outcomes != [] {
      var n := |outcomes| - 1;
      TallyByDayCounts(outcomes[..n]);
      if TallyByDay(outcomes).Ok? {
        var stamps := AllStamps(outcomes[..n]).value;
        var stamp := outcomes[n].value;
        var all := stamps + [stamp];
        assert AllStamps(outcomes) == Ok(all);
        assert all[..n] == stamps;
        var t := TallyByDay(outcomes[..n]).value;
        var u := Bump(t, stamp.monthYear, stamp.day);
        assert TallyByDay(outcomes).value == u;
        forall m, d ensures Occurrences(all, m, d) == (if m in u && d in u[m] then u[m][d] else 0) {
          assert Occurrences(all, m, d) == Occurrences(stamps, m, d) + (if stamp == Stamp(m, d) then 1 else 0);
        }
      }
    }
  }

  /** Two animals from one month on different days count one each. */
  lemma SameMonthByDay(a: Stamp, b: Stamp)
    requires a.monthYear == b.monthYear && a.day != b.day
    ensures TallyByDay([Ok(a), Ok(b)]) == Ok(map[a.monthYear := map[a.day := 1, b.day := 1]])
  {
    assert [Ok(a), Ok(b)][..1] == [Ok(a)];
    assert [Ok(a)][..0] == [];
    var t := map[a.monthYear := map[a.day := 1]];
    assert TallyByDay([Ok(a)]) == Ok(t);
    assert TallyByDay([Ok(a), Ok(b)]) == Ok(Bump(t, b.monthYear, b.day));
    assert Bump(t, b.monthYear, b.day) == t[a.monthYear := map[a.day := 1][b.day := 1]];
    assert t[a.monthYear := map[a.day := 1][b.day := 1]] == map[a.monthYear := map[a.day := 1, b.day := 1]];
  }

  /** The corrected count of two readable animals from one month on
      different days. */
  lemma TwoAnimalsInOneMonthByDay(first: Json, second: Json)
    requires PublishedStamp(first).Ok? && PublishedStamp(second).Ok?
    requires PublishedStamp(first).value.monthYear == PublishedStamp(second).value.monthYear
    requires PublishedStamp(first).value.day != PublishedStamp(second).value.day
    ensures var a := PublishedStamp(first).value; var b := PublishedStamp(second).value;
      CountAnimalsByDay(TwoAnimals(first, second)) == Ok(map[a.monthYear := map[a.day := 1, b.day := 1]])
  {
    TwoAnimalsOutcomes(first, second);
    SameMonthByDay(PublishedStamp(first).value, PublishedStamp(second).value);
  }
}
