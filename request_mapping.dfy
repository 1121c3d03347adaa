/** The configured JSON mapping from request names to request values, and
    what the two request builders (`create_fred_requests` in
    fred_lambda/lambda_function.py and `create_pf_requests` in
    petfinder_lambda/lambda_function.py) take from it. The two differ only
    in the key that identifies the data: `'series_id'` or `'category'`. */
module RequestMapping {
  import opened Py
  import opened Json

  /** What a builder takes from one entry of the mapping. */
  datatype RequestFields = RequestFields(name: string, id: Json, parameters: map<string, Json>)

  /** One entry `request_name: request_values`: `request_values[key]`
      (KeyError when missing, TypeError when the values are not a dict), and
      `request_values.get('parameters', {})`. A `'parameters'` value that is
      not a dict is refused with TypeError. */
  function EntryFields(entry: (string, Json), key: string): (r: Result<RequestFields>)
    ensures r.Ok? <==> HasKey(entry.1, key)
                       && (HasKey(entry.1, "parameters") ==> Subscript(entry.1, "parameters").value.JObj?)
    ensures r.Ok? ==> r.value.name == entry.0 && Subscript(entry.1, key) == Ok(r.value.id)
    ensures r.Ok? && !HasKey(entry.1, "parameters") ==> r.value.parameters == map[]
    ensures r.Ok? && HasKey(entry.1, "parameters") ==> r.value.parameters == ToMap(Subscript(entry.1, "parameters").value.fields)
    ensures r.Err? && entry.1.JObj? && !HasKey(entry.1, key) ==> r.exc == KeyError
    ensures !entry.1.JObj? ==> r == Err(TypeError)
  {
    match entry.1
    case JObj(fields) =>
      (match Lookup(fields, key)
       case None => Err(KeyError)
       case Some(id) =>
         match Lookup(fields, "parameters")
         case None => Ok(RequestFields(entry.0, id, map[]))
         case Some(JObj(parameters)) => Ok(RequestFields(entry.0, id, ToMap(parameters)))
         case Some(_) => Err(TypeError))
    case _ => Err(TypeError)
  }

  /** Entry `i` is the first that fails, and it fails with `e`. */
  predicate FirstFailure(entries: seq<(string, Json)>, key: string, e: Exception) {
    exists i :: 0 <= i < |entries|
      && (forall j :: 0 <= j < i ==> EntryFields(entries[j], key).Ok?)
      && EntryFields(entries[i], key) == Err(e)
  }

  /** A first failure among the later entries, after one that builds, is the
      first failure of them all. */
  lemma FirstFailureCons(entries: seq<(string, Json)>, key: string, e: Exception)
    requires |entries| > 0 && EntryFields(entries[0], key).Ok?
    requires FirstFailure(entries[1..], key, e)
    ensures FirstFailure(entries, key, e)
  {
    var i :| 0 <= i < |entries[1..]| && (forall j :: 0 <= j < i ==> EntryFields(entries[1..][j], key).Ok?)
             && EntryFields(entries[1..][i], key) == Err(e);
    assert entries[i + 1] == entries[1..][i];
    SucceedsCons(x => EntryFields(x, key), entries, i);
  }

  /** The fields of the first entry followed by those of the rest are the
      fields of every entry, in order. */
  lemma FieldsCons(entries: seq<(string, Json)>, key: string, first: RequestFields, rest: seq<RequestFields>)
    requires |entries| > 0 && EntryFields(entries[0], key) == Ok(first)
    requires |rest| == |entries| - 1
    requires forall i :: 0 <= i < |rest| ==> EntryFields(entries[1..][i], key) == Ok(rest[i])
    ensures forall i :: 0 <= i < |entries| ==> EntryFields(entries[i], key) == Ok(([first] + rest)[i])
  {
    EachCons(e => EntryFields(e, key), entries, first, rest);
  }

  /** The entries in iteration order; the first entry that fails decides the error. */
  function EntriesFields(entries: seq<(string, Json)>, key: string): (r: Result<seq<RequestFields>>)
    ensures r.Ok? ==> |r.value| == |entries|
    ensures r.Ok? ==> forall i :: 0 <= i < |entries| ==> EntryFields(entries[i], key) == Ok(r.value[i])
    ensures r.Err? ==> FirstFailure(entries, key, r.exc)
  {
    if entries == [] then Ok([])
    else
      var first :- EntryFields(entries[0], key);
      match EntriesFields(entries[1..], key)
      case Err(e) =>
        FirstFailureCons(entries, key, e);
        Err(e)
      case Ok(rest) =>
        FieldsCons(entries, key, first, rest);
        Ok([first] + rest)
  }

  /** The requests a builder makes of the mapping: one per key, in
      iteration order, named by the key; `.items()` on anything but a dict
      raises AttributeError. */
  function MappingFields(requestsJson: Json, key: string): (r: Result<seq<RequestFields>>)
    ensures !requestsJson.JObj? ==> r == Err(AttributeError)
    ensures r.Ok? ==> |r.value| == |requestsJson.fields|
    ensures r.Ok? ==> forall i :: 0 <= i < |r.value| ==>
              r.value[i].name == Keys(requestsJson.fields)[i]
              && Subscript(requestsJson.fields[i].1, key) == Ok(r.value[i].id)
    ensures requestsJson.JObj? && r.Err? ==> FirstFailure(requestsJson.fields, key, r.exc)
  {
    match requestsJson
    case JObj(fields) => EntriesFields(fields, key)
    case _ => Err(AttributeError)
  }

  /** The mapping builds requests exactly when every value is a dict with the
      key and with a `'parameters'` that, if present, is a dict. */
  lemma {:induction false} EntriesFieldsSucceed(entries: seq<(string, Json)>, key: string)
    ensures EntriesFields(entries, key).Ok? <==>
              forall i :: 0 <= i < |entries| ==>
                HasKey(entries[i].1, key)
                && (HasKey(entries[i].1, "parameters") ==> Subscript(entries[i].1, "parameters").value.JObj?)
  {
    if entries != [] {
      EntriesFieldsSucceed(entries[1..], key);
      assert forall i :: 0 <= i < |entries[1..]| ==> entries[1..][i] == entries[i + 1];
    }
  }

  /** When every entry before the `i`-th builds and the `i`-th is a dict
      without the key, the builder raises KeyError. */
  lemma {:induction false} FirstMissingKeyRaises(entries: seq<(string, Json)>, key: string, i: nat)
    requires i < |entries| && entries[i].1.JObj? && !HasKey(entries[i].1, key)
    requires forall j :: 0 <= j < i ==> EntryFields(entries[j], key).Ok?
    ensures EntriesFields(entries, key) == Err(KeyError)
    decreases i
  {
    if i > 0 {
      assert forall j :: 0 <= j < i - 1 ==> entries[1..][j] == entries[j + 1];
      FirstMissingKeyRaises(entries[1..], key, i - 1);
    }
  }

  lemma PrependStart(entries: seq<(string, Json)>, key: string)
    ensures Prepend([], EntriesFields(entries[0..], key)) == EntriesFields(entries, key)
  {
    assert entries[0..] == entries;
    if EntriesFields(entries, key).Ok? {
      assert [] + EntriesFields(entries, key).value == EntriesFields(entries, key).value;
    }
  }

  lemma PrependStep(done: seq<RequestFields>, entries: seq<(string, Json)>, key: string, i: nat)
    requires i < |entries|
    ensures Prepend(done, EntriesFields(entries[i..], key))
         == match EntryFields(entries[i], key)
            case Err(e) => Err(e)
            case Ok(f) => Prepend(done + [f], EntriesFields(entries[i + 1..], key))
  {
    assert entries[i..][0] == entries[i];
    assert entries[i..][1..] == entries[i + 1..];
    match EntryFields(entries[i], key)
    case Err(e) =>
    case Ok(f) =>
      match EntriesFields(entries[i + 1..], key)
      case Err(e) =>
      case Ok(fs) =>
        assert done + ([f] + fs) == done + [f] + fs;
  }

  /** A loop that has built `done` from the entries before `i` and meets a
      failing entry `i` ends with that entry's error, the first failure. */
  lemma MappingFailsAt(requestsJson: Json, key: string, done: seq<RequestFields>, i: nat, e: Exception)
    requires requestsJson.JObj? && i < |requestsJson.fields|
    requires EntriesFields(requestsJson.fields, key) == Prepend(done, EntriesFields(requestsJson.fields[i..], key))
    requires EntryFields(requestsJson.fields[i], key) == Err(e)
    ensures MappingFields(requestsJson, key) == Err(e)
    ensures FirstFailure(requestsJson.fields, key, e)
  {
    PrependStep(done, requestsJson.fields, key, i);
  }

  lemma PrependEnd(done: seq<RequestFields>, entries: seq<(string, Json)>, key: string)
    ensures Prepend(done, EntriesFields(entries[|entries|..], key)) == Ok(done)
  {
    assert entries[|entries|..] == [];
    assert done + [] == done;
  }
}
