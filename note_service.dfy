/**
 * The note service: one authenticated HTTP client and three request builders
 * (list, create, delete). Sending the request and decoding the reply are left to
 * the transport; here each operation yields the request it would send.
 */
module NoteService {
  import opened Wrappers
  import opened Text
  import opened Note

  const BaseUrl: string := "https://notehub-public.goit.study/api"

  const MissingTokenMessage: string :=
    "VITE_NOTEHUB_TOKEN is missing. Add it to .env.local (do not commit token)."

  /** Raised while the module loads, before any client exists. */
  datatype ConfigurationError = MissingToken(message: string)

  /** The configured transport: base URL and the headers sent with every request. */
  datatype Client = Client(baseUrl: string, headers: map<string, string>)

  datatype Verb = Get | Post | Delete

  /** A query parameter value as the transport serialises it. */
  datatype Param = NumParam(n: int) | StrParam(s: string)

  datatype FetchNotesParams = FetchNotesParams(page: int, perPage: int, search: Option<string>)

  datatype CreateNotePayload = CreateNotePayload(title: string, content: Option<string>, tag: NoteTag)

  /** The body of a list reply, as the transport decodes it. */
  datatype FetchNotesResponse = FetchNotesResponse(
    notes: seq<Note>,
    page: int,
    perPage: int,
    totalItems: int,
    totalPages: int)

  /** An HTTP request: verb, base URL, path, query parameters, headers and an optional JSON body. */
  datatype Request = Request(
    verb: Verb,
    baseUrl: string,
    path: string,
    params: map<string, Param>,
    headers: map<string, string>,
    body: Option<CreateNotePayload>)

  /** A token that JavaScript's `!token` lets through: defined and not the empty string. */
  predicate IsPresent(token: Option<string>) {
    token.Some? && token.value != ""
  }

  /** Client setup: refuses a missing or empty token, otherwise sends it as a bearer credential. */
  function NewClient(token: Option<string>): (r: Result<Client, ConfigurationError>)
    ensures r.Err? <==> !IsPresent(token)
    ensures r.Err? ==> r.error == MissingToken(MissingTokenMessage)
    ensures r.Ok? ==> r.value.baseUrl == BaseUrl
    ensures r.Ok? ==> r.value.headers == map["Authorization" := "Bearer " + token.value]
  {
    if !IsPresent(token) then Err(MissingToken(MissingTokenMessage))
    else Ok(Client(BaseUrl, map["Authorization" := "Bearer " + token.value]))
  }

  /**
   * `search?.trim() || undefined`: an absent search stays absent, a search that trims
   * to the empty string (falsy) becomes absent, anything else is sent trimmed.
   */
  function NormalizeSearch(search: Option<string>): (r: Option<string>)
    ensures r.None? <==> (search.None? || AllTrimmable(search.value))
    ensures r.Some? ==> r.value == Trim(search.value) && r.value != "" && IsTrimmed(r.value)
  {
    match search
    case None => None
    case Some(s) =>
      TrimEmptyIff(s);
      var t := Trim(s);
      if t == "" then None else Some(t)
  }

  /** Normalising an already normalised search changes nothing. */
  lemma NormalizeSearchIdempotent(search: Option<string>)
    ensures NormalizeSearch(NormalizeSearch(search)) == NormalizeSearch(search)
  {
    var n := NormalizeSearch(search);
    if n.Some? {
      TrimFixedIff(n.value);
      TrimEmptyIff(n.value);
    }
  }

  /** The query parameters; the transport leaves out a parameter whose value is `undefined`. */
  function QueryOf(page: int, perPage: int, search: Option<string>): map<string, Param> {
    var base := map["page" := NumParam(page), "perPage" := NumParam(perPage)];
    match search
    case None => base
    case Some(s) => base["search" := StrParam(s)]
  }

  function ListQuery(params: FetchNotesParams): map<string, Param> {
    QueryOf(params.page, params.perPage, NormalizeSearch(params.search))
  }

  /** `fetchNotes`: GET /notes with page and perPage as given and the normalised search. */
  function FetchNotesRequest(c: Client, params: FetchNotesParams): (r: Request)
    ensures r.verb == Get && r.path == "/notes" && r.body == None
    ensures r.baseUrl == c.baseUrl && r.headers == c.headers
    ensures r.params.Keys <= {"page", "perPage", "search"}
    ensures "page" in r.params && r.params["page"] == NumParam(params.page)
    ensures "perPage" in r.params && r.params["perPage"] == NumParam(params.perPage)
    ensures "search" in r.params <==> NormalizeSearch(params.search).Some?
    ensures "search" in r.params ==> r.params["search"] == StrParam(NormalizeSearch(params.search).value)
  {
    Request(Get, c.baseUrl, "/notes", ListQuery(params), c.headers, None)
  }

  /**
   * The list request has no search key when the search is absent or all whitespace;
   * otherwise it holds the trimmed search, which is non-empty and trimmed at both ends.
   */
  lemma ListRequestSearch(c: Client, params: FetchNotesParams)
    ensures var r := FetchNotesRequest(c, params);
      ("search" !in r.params <==> (params.search.None? || AllTrimmable(params.search.value))) &&
      ("search" in r.params ==>
        r.params["search"] == StrParam(Trim(params.search.value)) &&
        Trim(params.search.value) != "" && IsTrimmed(Trim(params.search.value)))
  {
  }

  /** The list request depends on the search only through its normalised form. */
  lemma SameNormalizedSearchSameRequest(c: Client, p1: FetchNotesParams, p2: FetchNotesParams)
    requires p1.page == p2.page && p1.perPage == p2.perPage
    requires NormalizeSearch(p1.search) == NormalizeSearch(p2.search)
    ensures FetchNotesRequest(c, p1) == FetchNotesRequest(c, p2)
  {
  }

  /** `createNote`: POST /notes with the payload as the body, unchanged and unchecked. */
  function CreateNoteRequest(c: Client, payload: CreateNotePayload): (r: Request)
    ensures r.verb == Post && r.path == "/notes" && r.params == map[]
    ensures r.baseUrl == c.baseUrl && r.headers == c.headers
    ensures r.body == Some(payload)
  {
    Request(Post, c.baseUrl, "/notes", map[], c.headers, Some(payload))
  }

  const NotesPrefix: string := "/notes/"

  /** `deleteNote`: DELETE /notes/<id>, without a body. */
  function DeleteNoteRequest(c: Client, id: string): (r: Request)
    ensures r.verb == Delete && r.params == map[] && r.body == None
    ensures r.baseUrl == c.baseUrl && r.headers == c.headers
    ensures |r.path| == |NotesPrefix| + |id|
    ensures r.path[..|NotesPrefix|] == NotesPrefix && r.path[|NotesPrefix|..] == id
  {
    Request(Delete, c.baseUrl, NotesPrefix + id, map[], c.headers, None)
  }

  /** The id is recoverable from the delete path, so distinct ids address distinct notes. */
  lemma DeleteTargetsOneNote(c: Client, id1: string, id2: string)
    ensures DeleteNoteRequest(c, id1).path == DeleteNoteRequest(c, id2).path <==> id1 == id2
  {
    var p1, p2 := DeleteNoteRequest(c, id1).path, DeleteNoteRequest(c, id2).path;
    if p1 == p2 {
      assert id1 == p1[|NotesPrefix|..] == p2[|NotesPrefix|..] == id2;
    }
  }

  /** The three operations the service exports. */
  datatype Operation =
    | FetchNotes(params: FetchNotesParams)
    | CreateNote(payload: CreateNotePayload)
    | DeleteNote(id: string)

  /** The request an operation sends through the client, given the token as configured. */
  function Issue(token: Option<string>, op: Operation): (r: Result<Request, ConfigurationError>)
    ensures r.Err? <==> !IsPresent(token)
    ensures r.Ok? ==> r.value.baseUrl == BaseUrl
    ensures r.Ok? ==> r.value.headers == map["Authorization" := "Bearer " + token.value]
  {
    match NewClient(token)
    case Err(e) => Err(e)
    case Ok(c) =>
      match op
      case FetchNotes(params) => Ok(FetchNotesRequest(c, params))
      case CreateNote(payload) => Ok(CreateNoteRequest(c, payload))
      case DeleteNote(id) => Ok(DeleteNoteRequest(c, id))
  }

  /** A list request with a blank search sends only page and perPage. */
  lemma BlankSearchScenario(c: Client)
    ensures FetchNotesRequest(c, FetchNotesParams(1, 12, Some("  "))).params ==
            map["page" := NumParam(1), "perPage" := NumParam(12)]
  {
    assert AllTrimmable("  ");
  }
}
