/** Reading the TOML configuration of the API-pull Lambda
    (pet_adoption_and_us_economy/api_pull/lambda/lambda_function.py): a value
    is found by following a list of keys from the top-level table, and the two
    manager builders read their settings from fixed key paths. The loaded
    configuration is an input. */
module ConfigLookup {
  import opened Py
  import opened Json
  import UtilsConnection

  /** The value a key path leads to: each key subscripts the value reached so
      far. A missing key raises KeyError (caught and raised again as KeyError);
      a key applied to a value that is not a table raises TypeError, which is
      not caught. */
  function PathLookup(config: Json, keys: seq<string>): (r: Result<Json>)
    ensures keys == [] ==> r == Ok(config)
    ensures r.Err? ==> r.exc == KeyError || r.exc == TypeError
    decreases |keys|
  {
    if keys == [] then Ok(config)
    else
      var next :- Subscript(config, keys[0]);
      PathLookup(next, keys[1..])
  }

  /** Following `a` and then `b` is following `a + b`: the first failure on
      the way decides the error. */
  lemma {:induction false} PathLookupAppend(config: Json, a: seq<string>, b: seq<string>)
    ensures PathLookup(config, a + b)
         == match PathLookup(config, a)
            case Ok(v) => PathLookup(v, b)
            case Err(e) => Err(e)
    decreases |a|
  {
    if a == [] {
      assert a + b == b;
    } else {
      assert (a + b)[0] == a[0];
      assert (a + b)[1..] == a[1..] + b;
      match Subscript(config, a[0])
      case Err(e) =>
      case Ok(next) => PathLookupAppend(next, a[1..], b);
    }
  }

  /** A path of one key is one subscript. */
  lemma PathLookupSingle(config: Json, key: string)
    ensures PathLookup(config, [key]) == Subscript(config, key)
  {
    assert [key][1..] == [];
  }

  /** A path of two keys: the first key names a table that holds the second. */
  lemma {:induction false} PathLookupTwo(config: Json, table: string, key: string)
    ensures PathLookup(config, [table, key]).Ok? <==>
              HasKey(config, table) && HasKey(Subscript(config, table).value, key)
    ensures PathLookup(config, [table, key]).Ok? ==>
              PathLookup(config, [table, key]).value == Subscript(Subscript(config, table).value, key).value
    ensures !HasKey(config, table) ==> PathLookup(config, [table, key]) == Subscript(config, table)
  {
    PathLookupAppend(config, [table], [key]);
    assert [table] + [key] == [table, key];
    PathLookupSingle(config, table);
    if HasKey(config, table) {
      PathLookupSingle(Subscript(config, table).value, key);
    }
  }

  /** `get_config_value`: the loop rebinds `config_data` to its value under
      each key in turn and returns what it reaches. */
  method GetConfigValue(configData: Json, keyHierarchy: seq<string>) returns (r: Result<Json>)
    ensures r == PathLookup(configData, keyHierarchy)
  {
    var current := configData;
    var i := 0;
    while i < |keyHierarchy|
      invariant 0 <= i <= |keyHierarchy|
      invariant PathLookup(configData, keyHierarchy) == PathLookup(current, keyHierarchy[i..])
    {
      assert keyHierarchy[i..][0] == keyHierarchy[i];
      assert keyHierarchy[i..][1..] == keyHierarchy[i + 1..];
      var next := Subscript(current, keyHierarchy[i]);
      if next.Err? {
        return Err(next.exc);
      }
      current := next.value;
      i := i + 1;
    }
    assert keyHierarchy[i..] == [];
    return Ok(current);
  }

  /** The four `petfinder_api` settings, in the order the builder reads them;
      the first one missing decides the error. */
  datatype PetfinderSettings = PetfinderSettings(apiUrl: Json, tokenUrl: Json, apiKey: Json, secretKey: Json)

  function PetfinderSettingsOf(config: Json): (r: Result<PetfinderSettings>)
    ensures r.Ok? <==> PathLookup(config, ["petfinder_api", "api_url"]).Ok?
                       && PathLookup(config, ["petfinder_api", "token_url"]).Ok?
                       && PathLookup(config, ["petfinder_api", "api_key"]).Ok?
                       && PathLookup(config, ["petfinder_api", "secret_key"]).Ok?
    ensures r.Ok? ==> r.value == PetfinderSettings(PathLookup(config, ["petfinder_api", "api_url"]).value,
                                                   PathLookup(config, ["petfinder_api", "token_url"]).value,
                                                   PathLookup(config, ["petfinder_api", "api_key"]).value,
                                                   PathLookup(config, ["petfinder_api", "secret_key"]).value)
  {
    var apiUrl :- PathLookup(config, ["petfinder_api", "api_url"]);
    var tokenUrl :- PathLookup(config, ["petfinder_api", "token_url"]);
    var apiKey :- PathLookup(config, ["petfinder_api", "api_key"]);
    var secretKey :- PathLookup(config, ["petfinder_api", "secret_key"]);
    Ok(PetfinderSettings(apiUrl, tokenUrl, apiKey, secretKey))
  }

  /** The two `news_api` settings. */
  datatype NewsSettings = NewsSettings(apiUrl: Json, apiKey: Json)

  function NewsSettingsOf(config: Json): (r: Result<NewsSettings>)
    ensures r.Ok? <==> PathLookup(config, ["news_api", "api_url"]).Ok? && PathLookup(config, ["news_api", "api_key"]).Ok?
    ensures r.Ok? ==> r.value == NewsSettings(PathLookup(config, ["news_api", "api_url"]).value,
                                              PathLookup(config, ["news_api", "api_key"]).value)
  {
    var apiUrl :- PathLookup(config, ["news_api", "api_url"]);
    var apiKey :- PathLookup(config, ["news_api", "api_key"]);
    Ok(NewsSettings(apiUrl, apiKey))
  }

  /** The builders succeed exactly when their table is present and holds
      every key they read. */
  lemma PetfinderSettingsPresent(config: Json)
    ensures PetfinderSettingsOf(config).Ok? <==>
              HasKey(config, "petfinder_api")
              && var table := Subscript(config, "petfinder_api").value;
                 HasKey(table, "api_url") && HasKey(table, "token_url")
                 && HasKey(table, "api_key") && HasKey(table, "secret_key")
  {
    PathLookupTwo(config, "petfinder_api", "api_url");
    PathLookupTwo(config, "petfinder_api", "token_url");
    PathLookupTwo(config, "petfinder_api", "api_key");
    PathLookupTwo(config, "petfinder_api", "secret_key");
  }

  lemma NewsSettingsPresent(config: Json)
    ensures NewsSettingsOf(config).Ok? <==>
              HasKey(config, "news_api")
              && HasKey(Subscript(config, "news_api").value, "api_url")
              && HasKey(Subscript(config, "news_api").value, "api_key")
  {
    PathLookupTwo(config, "news_api", "api_url");
    PathLookupTwo(config, "news_api", "api_key");
  }

  /** Two configurations whose `petfinder_api` tables agree give the same
      Petfinder settings: nothing else is read. */
  lemma PetfinderSettingsReadOnlyTheirTable(c1: Json, c2: Json)
    requires Subscript(c1, "petfinder_api") == Subscript(c2, "petfinder_api")
    ensures PetfinderSettingsOf(c1) == PetfinderSettingsOf(c2)
  {
    SameTableSameValue(c1, c2, "petfinder_api", "api_url");
    SameTableSameValue(c1, c2, "petfinder_api", "token_url");
    SameTableSameValue(c1, c2, "petfinder_api", "api_key");
    SameTableSameValue(c1, c2, "petfinder_api", "secret_key");
  }

  lemma NewsSettingsReadOnlyTheirTable(c1: Json, c2: Json)
    requires Subscript(c1, "news_api") == Subscript(c2, "news_api")
    ensures NewsSettingsOf(c1) == NewsSettingsOf(c2)
  {
    SameTableSameValue(c1, c2, "news_api", "api_url");
    SameTableSameValue(c1, c2, "news_api", "api_key");
  }

  lemma SameTableSameValue(c1: Json, c2: Json, table: string, key: string)
    requires Subscript(c1, table) == Subscript(c2, table)
    ensures PathLookup(c1, [table, key]) == PathLookup(c2, [table, key])
  {
    PathLookupAppend(c1, [table], [key]);
    PathLookupAppend(c2, [table], [key]);
    assert [table] + [key] == [table, key];
    PathLookupSingle(c1, table);
    PathLookupSingle(c2, table);
  }

  /** `create_petfinder_manager`: four lookups, then the connection manager
      of api_pull/utils/petfinder_api_connection_manager.py, whose URLs are
      used as strings. */
  method CreatePetfinderManager(configData: Json) returns (r: Result<UtilsConnection.PetfinderApiConnectionManager>)
    ensures r.Ok? <==> PetfinderSettingsOf(configData).Ok?
    ensures r.Err? ==> r.exc == KeyError || r.exc == TypeError
    ensures r.Ok? ==>
              var settings := PetfinderSettingsOf(configData).value;
              fresh(r.value)
              && r.value.apiUrl == Str(settings.apiUrl) && r.value.tokenUrl == Str(settings.tokenUrl)
              && r.value.apiKey == settings.apiKey && r.value.secretKey == settings.secretKey
              && r.value.petfinderAccessToken == null
  {
    var apiUrl :- GetConfigValue(configData, ["petfinder_api", "api_url"]);
    var tokenUrl :- GetConfigValue(configData, ["petfinder_api", "token_url"]);
    var apiKey :- GetConfigValue(configData, ["petfinder_api", "api_key"]);
    var secretKey :- GetConfigValue(configData, ["petfinder_api", "secret_key"]);
    var manager := new UtilsConnection.PetfinderApiConnectionManager(Str(apiUrl), Str(tokenUrl), apiKey, secretKey);
    return Ok(manager);
  }

  /** `create_news_manager`: two lookups; the settings the news manager is
      built from. */
  method CreateNewsManager(configData: Json) returns (r: Result<NewsSettings>)
    ensures r == NewsSettingsOf(configData)
  {
    var apiUrl :- GetConfigValue(configData, ["news_api", "api_url"]);
    var apiKey :- GetConfigValue(configData, ["news_api", "api_key"]);
    return Ok(NewsSettings(apiUrl, apiKey));
  }
}
