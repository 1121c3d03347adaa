/** `FredApiRequest` (fred_lambda/fred_api_management/fred_api_request.py):
    one FRED series to pull, with the query parameters sent along. */
module FredRequest {
  import opened Json

  class FredApiRequest {
    var name: string
    var seriesId: Json
    var parameters: map<string, Json>

    /** Stores the three values as given. */
    constructor (name: string, seriesId: Json, parameters: map<string, Json>)
      ensures this.name == name && this.seriesId == seriesId && this.parameters == parameters
    {
      this.name := name;
      this.seriesId := seriesId;
      this.parameters := parameters;
    }

    /** `parameters[name] = value`: sets or overwrites one key; the other keys,
        the name and the series id stay as they were. */
    method AddParameter(name: string, value: Json)
      modifies this
      ensures parameters == old(parameters)[name := value]
      ensures forall k :: k in old(parameters) && k != name ==> k in parameters && parameters[k] == old(parameters)[k]
      ensures this.name == old(this.name) && seriesId == old(seriesId)
    {
      parameters := parameters[name := value];
    }
  }

  /** Adding the same parameter twice leaves the request as adding it once. */
  method AddParameterTwice(request: FredApiRequest, name: string, value: Json)
    modifies request
    ensures request.parameters == old(request.parameters)[name := value]
    ensures request.name == old(request.name) && request.seriesId == old(request.seriesId)
  {
    request.AddParameter(name, value);
    ghost var once := request.parameters;
    request.AddParameter(name, value);
    assert request.parameters == once;
  }
}
