/** The `/search` route of the backend (backend/flask_api.py): the status and payload it
    answers for a request body and the outcome of the hosted place search. */
module FlaskApi {
  import opened Values

  /** The hosted place search `openai_websearch_places(query, city, province, country)`:
      a list of result objects, or the message of the exception it raised. */
  type PlaceSearch = (Json, string, string, string) -> Result<seq<Json>, string>

  /** The HTTP answer, and the query the place search was called with (`None` when it was
      not called). */
  datatype Reply = Reply(status: nat, payload: Json, searched: Option<Json>)

  function ErrorPayload(message: string): Json {
    JObj(map["error" := JStr(message)])
  }

  /** Python's name for the type of a decoded JSON value. */
  function PyTypeName(v: Json): string {
    match v
    case JNull => "NoneType"
    case JBool(_) => "bool"
    case JInt(_) => "int"
    case JReal(_) => "float"
    case JStr(_) => "str"
    case JArr(_) => "list"
    case JObj(_) => "dict"
  }

  /** `data.get('goal', '')` on a dictionary. */
  function Goal(fields: map<string, Json>): (q: Json)
    ensures "goal" in fields ==> q == fields["goal"]
    ensures "goal" !in fields ==> q == JStr("")
  {
    if "goal" in fields then fields["goal"] else JStr("")
  }

  /** `search_places`. `body` is what `request.get_json()` returned, or the message of the
      exception it raised; every exception becomes a 500 answer. */
  function SearchPlaces(body: Result<Json, string>, search: PlaceSearch): (r: Reply)
    ensures r.status in {200, 400, 404, 500}
    ensures body.Err? ==> r == Reply(500, ErrorPayload(body.error), None)
    ensures r.status == 400 <==> body.Ok? && !PyTruthy(body.value)
    ensures r.status == 400 ==> r.payload == ErrorPayload("No data provided")
    ensures r.searched.Some? <==> body.Ok? && body.value.JObj? && PyTruthy(body.value)
    ensures r.searched.Some? ==> r.searched.value == Goal(body.value.fields)
    ensures body.Ok? && PyTruthy(body.value) && !body.value.JObj? ==>
      r == Reply(500, ErrorPayload("'" + PyTypeName(body.value) + "' object has no attribute 'get'"), None)
    ensures r.searched.Some? ==>
      match search(r.searched.value, "Toronto", "Ontario", "CA")
      case Ok(results) =>
        (results != [] ==> r.status == 200 && r.payload == JArr(results))
        && (results == [] ==> r.status == 404 && r.payload == ErrorPayload("No results found"))
      case Err(e) => r.status == 500 && r.payload == ErrorPayload(e)
  {
    match body
    case Err(e) => Reply(500, ErrorPayload(e), None)
    case Ok(data) =>
      if !PyTruthy(data) then Reply(400, ErrorPayload("No data provided"), None)
      else if !data.JObj? then
        Reply(500, ErrorPayload("'" + PyTypeName(data) + "' object has no attribute 'get'"), None)
      else
        var searchQuery := Goal(data.fields);
        match search(searchQuery, "Toronto", "Ontario", "CA")
        case Err(e) => Reply(500, ErrorPayload(e), Some(searchQuery))
        case Ok(results) =>
          if results != [] then Reply(200, JArr(results), Some(searchQuery))
          else Reply(404, ErrorPayload("No results found"), Some(searchQuery))
  }

  /** A 200 answer is exactly a non-empty list from the place search, passed on unchanged. */
  lemma OkMeansResults(body: Result<Json, string>, search: PlaceSearch)
    ensures var r := SearchPlaces(body, search);
      r.status == 200 <==>
        r.searched.Some? && search(r.searched.value, "Toronto", "Ontario", "CA").Ok?
        && search(r.searched.value, "Toronto", "Ontario", "CA").value != []
  {
  }

  /** The answer depends on the place search only through its result for this query in
      Toronto, Ontario, CA. */
  lemma FixedLocation(body: Result<Json, string>, s1: PlaceSearch, s2: PlaceSearch)
    requires body.Ok? && body.value.JObj?
    requires s1(Goal(body.value.fields), "Toronto", "Ontario", "CA")
          == s2(Goal(body.value.fields), "Toronto", "Ontario", "CA")
    ensures SearchPlaces(body, s1) == SearchPlaces(body, s2)
  {
  }
}
