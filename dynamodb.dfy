/** The table logic of `DynamoDbManager`
    (dynamodb_management/dynamodb_manager.py): the latest day stored in the
    newest item a query returns, and the items built for a series of FRED
    observations. The query itself, the table and `boto3` are not modelled:
    the query's response is an input, and so is `json.loads`, as a function
    that gives None where it raises JSONDecodeError. */
module DynamoDb {
  import opened Py
  import opened Json
  import opened Calendar
  import opened Dates

  /** `x[0]`: the first element of a list or the first character of a
      string (IndexError when empty); a dict has no key `0` among its string
      keys; anything else cannot be indexed. */
  function IndexZero(x: Json): (r: Result<Json>)
    ensures x.JList? ==> r == (if x.items == [] then Err(IndexError) else Ok(x.items[0]))
    ensures x.JStr? ==> r == (if x.s == "" then Err(IndexError) else Ok(JStr(x.s[..1])))
    ensures x.JObj? ==> r == Err(KeyError)
    ensures r.Err? <==> !(x.JList? && x.items != []) && !(x.JStr? && x.s != "")
  {
    match x
    case JList(items) => if items == [] then Err(IndexError) else Ok(items[0])
    case JStr(s) => if s == "" then Err(IndexError) else Ok(JStr(s[..1]))
    case JObj(_) => Err(KeyError)
    case _ => Err(TypeError)
  }

  /** `json.loads(x)`: a string is parsed by `loads`; any other value raises
      TypeError. */
  function Loads(x: Json, loads: string -> Option<Json>): (r: Result<Json>)
    ensures r.Ok? <==> x.JStr? && loads(x.s).Some?
    ensures r.Ok? ==> r.value == loads(x.s).value
    ensures r.Err? ==> r.exc == (if x.JStr? then JSONDecodeError else TypeError)
  {
    match x
    case JStr(s) => (match loads(s) case Some(j) => Ok(j) case None => Err(JSONDecodeError))
    case _ => Err(TypeError)
  }

  /** The query answered with items: `response and 'Items' in response`. */
  predicate HasItems(response: seq<(string, Json)>) {
    response != [] && "Items" in Keys(response)
  }

  /** Lines 31-33: the values attribute of the first item, decoded. */
  function LastMonthData(response: seq<(string, Json)>, valuesAttributeName: string,
                         loads: string -> Option<Json>): (r: Result<Json>)
    requires HasItems(response)
    ensures r.Err? ==> r.exc in {KeyError, TypeError, IndexError, JSONDecodeError}
    ensures Lookup(response, "Items").value == JList([]) ==> r == Err(IndexError)
  {
    var lastItem :- IndexZero(Lookup(response, "Items").value);
    var lastMonthData :- Subscript(lastItem, valuesAttributeName);
    Loads(lastMonthData, loads)
  }

  /** The day keys of the decoded month data are all `'%Y-%m-%d'` dates. */
  predicate AllDays(fields: seq<(string, Json)>) {
    forall i :: 0 <= i < |fields| ==> Parse(fields[i].0).Ok?
  }

  /** `d` is the latest of the day keys. */
  predicate IsLatestDay(fields: seq<(string, Json)>, d: PyDate) {
    AllDays(fields)
    && (exists i :: 0 <= i < |fields| && Parse(fields[i].0) == Ok(d))
    && forall i :: 0 <= i < |fields| ==> NotAfter(Parse(fields[i].0).value, d)
  }

  /** The comprehension over the keys of a dict parses each key. */
  lemma KeysParsed(fields: seq<(string, Json)>, dates: seq<PyDate>)
    requires StrptimeEach(Elements(JObj(fields)).value) == Ok(dates)
    ensures |dates| == |fields| && forall i :: 0 <= i < |fields| ==> Parse(fields[i].0) == Ok(dates[i])
  {
    var keys := Elements(JObj(fields)).value;
    assert forall i :: 0 <= i < |keys| ==> keys[i].s == fields[i].0;
  }

  /** So the latest parsed key is the latest day key. */
  lemma LatestOfKeys(fields: seq<(string, Json)>, dates: seq<PyDate>)
    requires |dates| == |fields| && forall i :: 0 <= i < |fields| ==> Parse(fields[i].0) == Ok(dates[i])
    ensures AllDays(fields)
    ensures dates != [] ==> IsLatestDay(fields, Latest(dates))
  {
    if dates != [] {
      var latest := Latest(dates);
      var i :| 0 <= i < |dates| && dates[i] == latest;
      assert Parse(fields[i].0) == Ok(latest);
    }
  }

  class DynamoDbManager {
    const partitionKeyName: string
    const sortKeyName: string

    constructor (partitionKeyName: string, sortKeyName: string)
      ensures this.partitionKeyName == partitionKeyName && this.sortKeyName == sortKeyName
    {
      this.partitionKeyName := partitionKeyName;
      this.sortKeyName := sortKeyName;
    }

    /** The part of `get_last_updated_day` after the query: None when
        nothing came back, otherwise the latest day key of the newest item's
        month data, at midnight. Every failure on the way raises: no item, no
        attribute, undecodable data, data that is not a dict (`.keys()`),
        a key that is not a date, or no key at all (`max` of an empty list). */
    function GetLastUpdatedDay(response: seq<(string, Json)>, valuesAttributeName: string,
                               loads: string -> Option<Json>): (r: Result<Option<DateTime>>)
      ensures r == Ok(None) <==> !HasItems(response)
      ensures HasItems(response) && LastMonthData(response, valuesAttributeName, loads).Err? ==>
                r == Err(LastMonthData(response, valuesAttributeName, loads).exc)
      ensures HasItems(response) && LastMonthData(response, valuesAttributeName, loads).Ok? ==>
                var data := LastMonthData(response, valuesAttributeName, loads).value;
                (!data.JObj? ==> r == Err(AttributeError))
                && (data.JObj? ==>
                      (r.Ok? <==> data.fields != [] && AllDays(data.fields))
                      && (data.fields == [] || !AllDays(data.fields) ==> r == Err(ValueError))
                      && (r.Ok? ==> r.value.Some? && r.value.value == AtMidnight(r.value.value.date)
                                    && IsLatestDay(data.fields, r.value.value.date)))
    {
      if !HasItems(response) then Ok(None)
      else
        var jsonData :- LastMonthData(response, valuesAttributeName, loads);
        if !jsonData.JObj? then Err(AttributeError)
        else
          var dates :- StrptimeEach(Elements(jsonData).value);
          KeysParsed(jsonData.fields, dates);
          if dates == [] then Err(ValueError)
          else
            LatestOfKeys(jsonData.fields, dates);
            Ok(Some(AtMidnight(Latest(dates))))
    }

    /** `put_fred_data`: builds the items in a loop, appending each one, and
        returns None; the list is never written to the table. The only effect
        the caller sees is whether it raised. */
    method PutFredData(requestName: Json, data: Json, valuesAttributeName: string)
      returns (r: Result<()>, ghost newData: seq<Item>)
      ensures r.Ok? <==> PutFredItems(ItemNames(partitionKeyName, sortKeyName, valuesAttributeName),
                                      requestName, data).Ok?
      ensures r.Err? ==> r.exc == PutFredItems(ItemNames(partitionKeyName, sortKeyName, valuesAttributeName),
                                               requestName, data).exc
      ensures r.Ok? ==> newData == PutFredItems(ItemNames(partitionKeyName, sortKeyName, valuesAttributeName),
                                                requestName, data).value
    {
      var names := ItemNames(partitionKeyName, sortKeyName, valuesAttributeName);
      var observations := Elements(data);
      if observations.Err? {
        return Err(observations.exc), [];
      }
      var obs := observations.value;
      newData := [];
      var i := 0;
      FredItemsStart(names, requestName, obs);
      while i < |obs|
        invariant 0 <= i <= |obs|
        invariant FredItems(names, requestName, obs) == Prepend(newData, FredItems(names, requestName, obs[i..]))
      {
        FredItemsStep(names, requestName, newData, obs, i);
        var observation := obs[i];
        var date := Subscript(observation, "date");
        if date.Err? {
          return Err(date.exc), newData;
        }
        var value := Subscript(observation, "value");
        if value.Err? {
          return Err(value.exc), newData;
        }
        var newItem := NewItem(names, requestName, date.value, value.value);
        newData := newData + [newItem];
        i := i + 1;
      }
      FredItemsEnd(names, requestName, newData, obs);
      return Ok(()), newData;
    }
  }

  /** There is only one latest day, so the contract fixes the result: a
      day key no other key follows is the day returned. */
  lemma LatestDayIsUnique(fields: seq<(string, Json)>, d: PyDate, e: PyDate)
    requires IsLatestDay(fields, d) && IsLatestDay(fields, e)
    ensures d == e
  {
    var i :| 0 <= i < |fields| && Parse(fields[i].0) == Ok(d);
    var j :| 0 <= j < |fields| && Parse(fields[j].0) == Ok(e);
    assert NotAfter(d, e) && NotAfter(e, d);
  }

  /** The dict display `{k1: v1, ...}` adds its entries in order: a key seen
      before keeps its place and takes the new value. */
  function Insert(fields: seq<(string, Json)>, key: string, value: Json): seq<(string, Json)> {
    if fields == [] then [(key, value)]
    else if fields[0].0 == key then [(key, value)] + fields[1..]
    else [fields[0]] + Insert(fields[1..], key, value)
  }

  /** After the insertion the key gives the new value and every other key
      what it gave before. */
  lemma {:induction false} InsertLookup(fields: seq<(string, Json)>, key: string, value: Json, k: string)
    ensures Lookup(Insert(fields, key, value), k) == if k == key then Some(value) else Lookup(fields, k)
  {
    var r := Insert(fields, key, value);
    if fields != [] {
      if fields[0].0 == key {
        assert r[1..] == fields[1..];
      } else {
        assert r[1..] == Insert(fields[1..], key, value);
        InsertLookup(fields[1..], key, value, k);
      }
    }
  }

  /** A new key goes last; a key already present keeps its place. */
  lemma {:induction false} InsertKeys(fields: seq<(string, Json)>, key: string, value: Json)
    ensures Keys(Insert(fields, key, value)) == if key in Keys(fields) then Keys(fields) else Keys(fields) + [key]
  {
    var r := Insert(fields, key, value);
    if fields != [] {
      if fields[0].0 == key {
        assert r[1..] == fields[1..];
        assert Keys(r) == [key] + Keys(fields[1..]);
      } else {
        assert r[1..] == Insert(fields[1..], key, value);
        InsertKeys(fields[1..], key, value);
        assert Keys(r) == [fields[0].0] + Keys(r[1..]);
        assert Keys(fields) == [fields[0].0] + Keys(fields[1..]);
      }
    }
  }

  /** A DynamoDB item: attribute names bound to values. */
  type Item = seq<(string, Json)>

  /** The three attribute names of an item: the table's partition and sort
      keys and the values attribute the caller names. */
  datatype ItemNames = ItemNames(partitionKey: string, sortKey: string, values: string)

  predicate Distinct(names: ItemNames) {
    names.partitionKey != names.sortKey && names.partitionKey != names.values && names.sortKey != names.values
  }

  /** The item of lines 45-49. */
  function NewItem(names: ItemNames, requestName: Json, date: Json, value: Json): Item {
    Insert(Insert(Insert([], names.partitionKey, requestName), names.sortKey, date), names.values, value)
  }

  /** With three distinct names the item has exactly those keys, in that
      order, bound to the request name, the date and the value; when names
      coincide the later entry's value wins. */
  lemma NewItemFields(names: ItemNames, requestName: Json, date: Json, value: Json)
    ensures var item := NewItem(names, requestName, date, value);
      Lookup(item, names.values) == Some(value)
      && (names.sortKey != names.values ==> Lookup(item, names.sortKey) == Some(date))
      && (names.partitionKey != names.sortKey && names.partitionKey != names.values ==>
            Lookup(item, names.partitionKey) == Some(requestName))
      && (Distinct(names) ==> Keys(item) == [names.partitionKey, names.sortKey, names.values])
  {
    var one := Insert([], names.partitionKey, requestName);
    var two := Insert(one, names.sortKey, date);
    InsertLookup(two, names.values, value, names.values);
    InsertLookup(two, names.values, value, names.sortKey);
    InsertLookup(two, names.values, value, names.partitionKey);
    InsertLookup(one, names.sortKey, date, names.sortKey);
    InsertLookup(one, names.sortKey, date, names.partitionKey);
    InsertLookup([], names.partitionKey, requestName, names.partitionKey);
    if Distinct(names) {
      NewItemKeys(names, requestName, date, value);
    }
  }

  lemma NewItemKeys(names: ItemNames, requestName: Json, date: Json, value: Json)
    requires Distinct(names)
    ensures Keys(NewItem(names, requestName, date, value)) == [names.partitionKey, names.sortKey, names.values]
  {
    var pk, sk, vk := names.partitionKey, names.sortKey, names.values;
    var one := Insert([], pk, requestName);
    var two := Insert(one, sk, date);
    InsertKeys([], pk, requestName);
    assert Keys(one) == [pk];
    InsertKeys(one, sk, date);
    assert Keys(two) == [pk] + [sk];
    InsertKeys(two, vk, value);
    assert Keys(NewItem(names, requestName, date, value)) == [pk] + [sk] + [vk];
  }

  /** One observation's item: `observation['date']`, then `observation['value']`. */
  function ObservationItem(names: ItemNames, requestName: Json, observation: Json): (r: Result<Item>)
    ensures r.Ok? <==> HasKey(observation, "date") && HasKey(observation, "value")
    ensures r.Ok? ==> r.value == NewItem(names, requestName, Subscript(observation, "date").value,
                                         Subscript(observation, "value").value)
    ensures r.Err? ==> r.exc == (if observation.JObj? then KeyError else TypeError)
  {
    var date :- Subscript(observation, "date");
    var value :- Subscript(observation, "value");
    Ok(NewItem(names, requestName, date, value))
  }

  /** Every observation before `i` builds an item and observation `i` fails
      with `e`, for some `i`. */
  predicate FirstItemFailure(names: ItemNames, requestName: Json, observations: seq<Json>, e: Exception) {
    exists i :: 0 <= i < |observations|
      && (forall j :: 0 <= j < i ==> ObservationItem(names, requestName, observations[j]).Ok?)
      && ObservationItem(names, requestName, observations[i]) == Err(e)
  }

  /** A first failure among the later observations, after one that builds,
      is the first failure of them all. */
  lemma FirstItemFailureCons(names: ItemNames, requestName: Json, observations: seq<Json>, e: Exception)
    requires |observations| > 0 && ObservationItem(names, requestName, observations[0]).Ok?
    requires FirstItemFailure(names, requestName, observations[1..], e)
    ensures FirstItemFailure(names, requestName, observations, e)
  {
    var i :| 0 <= i < |observations[1..]|
             && (forall j :: 0 <= j < i ==> ObservationItem(names, requestName, observations[1..][j]).Ok?)
             && ObservationItem(names, requestName, observations[1..][i]) == Err(e);
    assert observations[i + 1] == observations[1..][i];
    SucceedsCons(o => ObservationItem(names, requestName, o), observations, i);
  }

  /** The item of the first observation followed by those of the rest are
      the items of every observation, in order. */
  lemma ItemsCons(names: ItemNames, requestName: Json, observations: seq<Json>, first: Item, rest: seq<Item>)
    requires |observations| > 0 && ObservationItem(names, requestName, observations[0]) == Ok(first)
    requires |rest| == |observations| - 1
    requires forall i :: 0 <= i < |rest| ==> ObservationItem(names, requestName, observations[1..][i]) == Ok(rest[i])
    ensures forall i :: 0 <= i < |observations| ==> ObservationItem(names, requestName, observations[i]) == Ok(([first] + rest)[i])
  {
    EachCons(o => ObservationItem(names, requestName, o), observations, first, rest);
  }

  /** The items of a list of observations, in order; the first observation
      that fails decides the error. */
  function FredItems(names: ItemNames, requestName: Json, observations: seq<Json>): (r: Result<seq<Item>>)
    ensures r.Ok? ==> |r.value| == |observations|
                      && forall i :: 0 <= i < |observations| ==>
                           ObservationItem(names, requestName, observations[i]) == Ok(r.value[i])
    ensures r.Err? ==> FirstItemFailure(names, requestName, observations, r.exc)
  {
    if observations == [] then Ok([])
    else
      var first :- ObservationItem(names, requestName, observations[0]);
      match FredItems(names, requestName, observations[1..])
      case Err(e) =>
        FirstItemFailureCons(names, requestName, observations, e);
        Err(e)
      case Ok(rest) =>
        ItemsCons(names, requestName, observations, first, rest);
        Ok([first] + rest)
  }

  /** Every observation has a date and a value exactly when items are built
      for all of them. */
  lemma {:induction false} FredItemsSucceed(names: ItemNames, requestName: Json, observations: seq<Json>)
    ensures FredItems(names, requestName, observations).Ok? <==>
              forall i :: 0 <= i < |observations| ==>
                HasKey(observations[i], "date") && HasKey(observations[i], "value")
  {
    if observations != [] {
      FredItemsSucceed(names, requestName, observations[1..]);
      assert forall i :: 0 <= i < |observations[1..]| ==> observations[1..][i] == observations[i + 1];
    }
  }

  lemma FredItemsStart(names: ItemNames, requestName: Json, observations: seq<Json>)
    ensures Prepend([], FredItems(names, requestName, observations[0..])) == FredItems(names, requestName, observations)
  {
    assert observations[0..] == observations;
    if FredItems(names, requestName, observations).Ok? {
      assert [] + FredItems(names, requestName, observations).value == FredItems(names, requestName, observations).value;
    }
  }

  lemma FredItemsStep(names: ItemNames, requestName: Json, done: seq<Item>, observations: seq<Json>, i: nat)
    requires i < |observations|
    ensures Prepend(done, FredItems(names, requestName, observations[i..]))
         == match ObservationItem(names, requestName, observations[i])
            case Err(e) => Err(e)
            case Ok(item) => Prepend(done + [item], FredItems(names, requestName, observations[i + 1..]))
  {
    assert observations[i..][0] == observations[i];
    assert observations[i..][1..] == observations[i + 1..];
    match ObservationItem(names, requestName, observations[i])
    case Err(e) =>
    case Ok(item) =>
      match FredItems(names, requestName, observations[i + 1..])
      case Err(e) =>
      case Ok(items) =>
        assert done + ([item] + items) == done + [item] + items;
  }

  lemma FredItemsEnd(names: ItemNames, requestName: Json, done: seq<Item>, observations: seq<Json>)
    ensures Prepend(done, FredItems(names, requestName, observations[|observations|..])) == Ok(done)
  {
    assert observations[|observations|..] == [];
    assert done + [] == done;
  }

  /** What `put_fred_data` computes before it discards it: `for observation
      in data` over the FRED observations, one item each. */
  function PutFredItems(names: ItemNames, requestName: Json, data: Json): (r: Result<seq<Item>>)
    ensures Elements(data).Err? ==> r == Err(TypeError)
    ensures Elements(data).Ok? ==> r == FredItems(names, requestName, Elements(data).value)
  {
    var observations :- Elements(data);
    FredItems(names, requestName, observations)
  }

  /** A list of observation dicts each holding a date and a value is turned
      into as many items, each with the partition key, sort key and value
      of its own observation. */
  lemma PutFredItemsOfObservations(names: ItemNames, requestName: Json, observations: seq<Json>)
    requires Distinct(names)
    requires forall i :: 0 <= i < |observations| ==> HasKey(observations[i], "date") && HasKey(observations[i], "value")
    ensures var r := PutFredItems(names, requestName, JList(observations));
      r.Ok? && |r.value| == |observations|
      && forall i :: 0 <= i < |observations| ==>
           Keys(r.value[i]) == [names.partitionKey, names.sortKey, names.values]
           && Lookup(r.value[i], names.partitionKey) == Some(requestName)
           && Lookup(r.value[i], names.sortKey) == Some(Subscript(observations[i], "date").value)
           && Lookup(r.value[i], names.values) == Some(Subscript(observations[i], "value").value)
  {
    FredItemsSucceed(names, requestName, observations);
    forall i | 0 <= i < |observations|
      ensures var item := NewItem(names, requestName, Subscript(observations[i], "date").value,
                                  Subscript(observations[i], "value").value);
        Keys(item) == [names.partitionKey, names.sortKey, names.values]
        && Lookup(item, names.partitionKey) == Some(requestName)
        && Lookup(item, names.sortKey) == Some(Subscript(observations[i], "date").value)
        && Lookup(item, names.values) == Some(Subscript(observations[i], "value").value)
    {
      NewItemFields(names, requestName, Subscript(observations[i], "date").value, Subscript(observations[i], "value").value);
    }
  }
}
