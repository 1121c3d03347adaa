/** `PetfinderApiRequest` (api_pull/utils/petfinder/petfinder_api_request.py):
    one Petfinder listing to pull: the request's name, which identifies it
    everywhere, the endpoint category and the query parameters. */
module PetfinderRequest {
  import opened Json

  class PetfinderApiRequest {
    var name: string
    var category: Json
    var parameters: map<string, Json>

    /** Stores the three values as given. */
    constructor (name: string, category: Json, parameters: map<string, Json>)
      ensures this.name == name && this.category == category && this.parameters == parameters
    {
      this.name := name;
      this.category := category;
      this.parameters := parameters;
    }

    /** `parameters[parameter_name] = parameter_value`: sets or overwrites one
        key; the other keys, the name and the category stay as they were. */
    method AddParameter(parameterName: string, parameterValue: Json)
      modifies this
      ensures parameters == old(parameters)[parameterName := parameterValue]
      ensures forall k :: k in old(parameters) && k != parameterName ==> k in parameters && parameters[k] == old(parameters)[k]
      ensures this.name == old(this.name) && category == old(category)
    {
      parameters := parameters[parameterName := parameterValue];
    }
  }

  /** Adding the same parameter twice leaves the request as adding it once. */
  method AddParameterTwice(request: PetfinderApiRequest, name: string, value: Json)
    modifies request
    ensures request.parameters == old(request.parameters)[name := value]
    ensures request.name == old(request.name) && request.category == old(request.category)
  {
    request.AddParameter(name, value);
    ghost var once := request.parameters;
    request.AddParameter(name, value);
    assert request.parameters == once;
  }
}
