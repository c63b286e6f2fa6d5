/** The state of the client and the operations that change it: the token
    and login, the three collections every view reads, and the
    notification text. Responses and errors arrive as parameters; each
    request the client would send is returned as a value. */
module App {
  import opened Seqs
  import opened Text
  import opened Entities
  import opened StableSort
  import opened Normalize
  import opened GraphQL
  import opened Requests
  import opened Errors

  const ContentType: string := "Content-Type"
  const JsonType: string := "application/json"
  const AuthorizationHeader: string := "Authorization"
  /** The custom prefix the backend expects in front of the token. */
  const AuthScheme: string := "Bear_R@d1f "
  const SuccessNotice: string := "Успешная операция!"

  /** What `reduce` without an initial value throws on an empty array. */
  const ReduceError: HttpError := HttpError("TypeError", "Reduce of empty array with no initial value", None)

  /** The answer to the token request: a refusal (the `.catch`), or a
      success whose body may or may not hold an `access` field. */
  datatype TokenAnswer = Refused | Answered(access: Option<string>)

  /** The filters of the deletes. */
  function ProjectIdOtherThan(id: int): Project -> bool {
    (p: Project) => p.id != id
  }

  function TodoProjectOtherThan(id: int): Todo -> bool {
    (t: Todo) => t.project != id
  }

  function TodoIdOtherThan(id: int): Todo -> bool {
    (t: Todo) => t.id != id
  }

  /** Removing entries keeps a list sorted. */
  lemma {:induction false} FilterKeepsSorted<T(!new)>(s: seq<T>, keep: T -> bool, key: T -> int)
    requires SortedDesc(s, key)
    ensures SortedDesc(Filter(s, keep), key)
  {
    if s != [] {
      assert SortedDesc(s[1..], key) by {
        forall i, j | 0 <= i < j < |s[1..]| ensures key(s[1..][i]) >= key(s[1..][j]) {
          assert s[1..][i] == s[i + 1] && s[1..][j] == s[j + 1];
        }
      }
      FilterKeepsSorted(s[1..], keep, key);
      var rest := Filter(s[1..], keep);
      if keep(s[0]) {
        forall j | 0 <= j < |rest| ensures key(s[0]) >= key(rest[j]) {
          assert rest[j] in s[1..];
          var k :| 0 <= k < |s[1..]| && s[1..][k] == rest[j];
          assert s[k + 1] == rest[j];
        }
        var r := [s[0]] + rest;
        forall i, j | 0 <= i < j < |r| ensures key(r[i]) >= key(r[j]) {
          assert r[j] == rest[j - 1];
          if i > 0 {
            assert r[i] == rest[i - 1];
          }
        }
      }
    }
  }

  /** Removing entries keeps the project ids distinct. */
  lemma {:induction false} FilterKeepsDistinctIds(ps: seq<Project>, keep: Project -> bool)
    requires DistinctIds(ps)
    ensures DistinctIds(Filter(ps, keep))
  {
    if ps != [] {
      assert DistinctIds(ps[1..]) by {
        forall i, j | 0 <= i < j < |ps[1..]| ensures ps[1..][i].id != ps[1..][j].id {
          assert ps[1..][i] == ps[i + 1] && ps[1..][j] == ps[j + 1];
        }
      }
      FilterKeepsDistinctIds(ps[1..], keep);
      var rest := Filter(ps[1..], keep);
      if keep(ps[0]) {
        forall j | 0 <= j < |rest| ensures ps[0].id != rest[j].id {
          assert rest[j] in ps[1..];
          var k :| 0 <= k < |ps[1..]| && ps[1..][k] == rest[j];
          assert ps[k + 1] == rest[j];
        }
        var r := [ps[0]] + rest;
        forall i, j | 0 <= i < j < |r| ensures r[i].id != r[j].id {
          assert r[j] == rest[j - 1];
          if i > 0 {
            assert r[i] == rest[i - 1];
          }
        }
      }
    }
  }

  /** What `setAllData` establishes and the deletes keep: one project per
      id, and projects and todos newest first. */
  ghost predicate Consistent(projects: seq<Project>, todos: seq<Todo>) {
    DistinctIds(projects) && SortedDesc(projects, ProjectUpdated) && SortedDesc(todos, TodoUpdated)
  }

  /** The message of the reduce error does not name the header encoding. */
  lemma ReduceMessageUnmarked()
    ensures !Occurs(ReduceError.message, EncodingMarker)
  {
    NoMarkerWithoutI(ReduceError.message);
  }

  /** The failing reduce reaches the handler as an error without a request:
      one generic alert, and the token stays. */
  lemma ReduceErrorIsGeneric()
    ensures Classify(ReduceError) == Handling([Generic(ErrorText(ReduceError))], 0)
  {
    ReduceMessageUnmarked();
    UnmarkedWithoutRequest(ReduceError);
  }

  class GeneralApp {
    var users: seq<User>
    var projects: seq<Project>
    var todos: seq<Todo>
    var token: string
    var login: string
    var notification: string

    /** The initial state: nothing fetched, nobody logged in. */
    constructor()
      ensures users == [] && projects == [] && todos == []
      ensures token == "" && login == "" && notification == ""
    {
      users, projects, todos := [], [], [];
      token, login, notification := "", "", "";
    }

    /** `isAuthenticated`: the token is a non-empty string. */
    function IsAuthenticated(): (b: bool)
      reads this
      ensures b <==> |token| > 0
    {
      token != ""
    }

    /** `getHeaders`: the JSON content type always, the authorization
        header exactly when a token is held, and nothing else. */
    function GetHeaders(): (h: Headers)
      reads this
      ensures ContentType in h && h[ContentType] == JsonType
      ensures AuthorizationHeader in h <==> IsAuthenticated()
      ensures AuthorizationHeader in h ==> h[AuthorizationHeader] == AuthScheme + token
      ensures h.Keys <= {ContentType, AuthorizationHeader}
    {
      var headers := map[ContentType := JsonType];
      if IsAuthenticated() then headers[AuthorizationHeader := AuthScheme + token] else headers
    }

    /** `getAllData`: the GraphQL query when anonymous, the paged REST list
        of users with the headers when authenticated. */
    function FetchAllRequest(): (r: Request)
      reads this
      ensures r.verb == Post <==> !IsAuthenticated()
      ensures r.verb == Post ==> r.url == Domain + GraphQLEndpoint && r.headers == map[] && r.body == AllUsersQuery(GetHeaders())
      ensures r.verb != Post ==> r.verb == Get && r.url == ListUrl(Domain, UsersEndpoint, Limit, Offset) && r.headers == GetHeaders() && r.body == NoBody
    {
      if !IsAuthenticated() then Request(Post, Domain + GraphQLEndpoint, map[], AllUsersQuery(GetHeaders()))
      else Request(Get, ListUrl(Domain, UsersEndpoint, Limit, Offset), GetHeaders(), NoBody)
    }

    /** `getToken`, which `componentDidMount` calls: the token and login
        read from the cookies, a missing cookie reading as no token or
        login, then a fetch of everything. */
    method GetToken(cookieToken: Option<string>, cookieLogin: Option<string>) returns (fetch: Request)
      modifies this
      ensures token == (if cookieToken.Some? then cookieToken.value else "")
      ensures login == (if cookieLogin.Some? then cookieLogin.value else "")
      ensures IsAuthenticated() <==> cookieToken.Some? && cookieToken.value != ""
      ensures users == old(users) && projects == old(projects) && todos == old(todos)
      ensures notification == old(notification)
      ensures fetch == FetchAllRequest()
    {
      token := if cookieToken.Some? then cookieToken.value else "";
      login := if cookieLogin.Some? then cookieLogin.value else "";
      fetch := FetchAllRequest();
    }

    /** `setToken`: stores the token and login, then fetches everything. */
    method SetToken(t: string, l: string) returns (fetch: Request)
      modifies this
      ensures token == t && login == l
      ensures users == old(users) && projects == old(projects) && todos == old(todos)
      ensures notification == old(notification)
      ensures fetch == FetchAllRequest()
    {
      token, login := t, l;
      fetch := FetchAllRequest();
    }

    /** `logout`: clears the token and login; the refetch goes to GraphQL. */
    method Logout() returns (fetch: Request)
      modifies this
      ensures token == "" && login == "" && !IsAuthenticated()
      ensures users == old(users) && projects == old(projects) && todos == old(todos)
      ensures notification == old(notification)
      ensures fetch == Request(Post, Domain + GraphQLEndpoint, map[], AllUsersQuery(map[ContentType := JsonType]))
    {
      fetch := SetToken("", "");
    }

    /** `auth(login, password)`: `{username, password}` posted to the
        token endpoint, without any header, whatever token is held. */
    method Auth(l: string, password: string) returns (req: Request)
      ensures req.verb == Post && req.url == Domain + TokenEndpoint
      ensures req.body == Credentials(l, password)
      ensures req.headers == map[] && AuthorizationHeader !in req.headers
    {
      req := Request(Post, Domain + TokenEndpoint, map[], Credentials(l, password));
    }

    /** The answer to `auth(login, password)`: a success stores its
        `access` field, or no token when it has none, with the login and
        refetches; a refusal raises one alert and changes nothing. */
    method AuthAnswered(l: string, answer: TokenAnswer) returns (alerts: seq<Alert>, fetches: seq<Request>)
      modifies this
      ensures answer.Answered? ==> login == l && alerts == [] && fetches == [FetchAllRequest()]
      ensures answer == Answered(None) ==> (token == "" && !IsAuthenticated() &&
        fetches == [Request(Post, Domain + GraphQLEndpoint, map[], AllUsersQuery(map[ContentType := JsonType]))])
      ensures answer.Answered? && answer.access.Some? ==> token == answer.access.value
      ensures answer.Refused? ==> token == old(token) && login == old(login) && alerts == [WrongCredentials] && fetches == []
      ensures users == old(users) && projects == old(projects) && todos == old(todos)
      ensures notification == old(notification)
    {
      match answer {
        case Answered(access) =>
          var fetch := SetToken(if access.Some? then access.value else "", l);
          alerts, fetches := [], [fetch];
        case Refused =>
          alerts, fetches := [WrongCredentials], [];
      }
    }

    /** `setAllData(data)`. When no user has a project, or no user has a
        todo, a reduce throws and nothing is stored (`ok` is false);
        otherwise the three collections become the normalised snapshot. */
    method SetAllData(data: seq<NestedUser>) returns (ok: bool)
      modifies this
      ensures ok <==> NormalizeAsWritten(data).Some?
      ensures ok ==> users == Normalize.Normalize(data).users && projects == Normalize.Normalize(data).projects && todos == Normalize.Normalize(data).todos
      ensures ok ==> Consistent(projects, todos)
      ensures !ok ==> users == old(users) && projects == old(projects) && todos == old(todos)
      ensures token == old(token) && login == old(login) && notification == old(notification)
    {
      var collected := Collect(data);
      ok := collected.Some?;
      if ok {
        AsWrittenAgrees(data);
        NormalizedConsistent(data);
        Store(collected.value);
      }
    }

    /** The `setState` of `setAllData`: the three collections at once,
        nothing else. */
    method Store(snap: Snapshot)
      modifies this
      ensures users == snap.users && projects == snap.projects && todos == snap.todos
      ensures token == old(token) && login == old(login) && notification == old(notification)
    {
      users, projects, todos := snap.users, snap.projects, snap.todos;
    }

    /** `handleErrors(error)`: the alerts of the classification, and one
        `setToken("", "")` with its refetch per reset. */
    method HandleErrors(e: HttpError) returns (alerts: seq<Alert>, fetches: seq<Request>)
      modifies this
      ensures alerts == Classify(e).alerts
      ensures |fetches| == Classify(e).resets
      ensures Classify(e).resets > 0 ==> token == "" && login == ""
      ensures Classify(e).resets == 0 ==> token == old(token) && login == old(login)
      ensures forall k :: 0 <= k < |fetches| ==> fetches[k] == FetchAllRequest()
      ensures users == old(users) && projects == old(projects) && todos == old(todos)
      ensures notification == old(notification)
    {
      alerts, fetches := [], [];
      if IndexOf(e.message, EncodingMarker) != -1 {
        alerts := [MalformedToken];
        var fetch := SetToken("", "");
        fetches := [fetch];
      }
      match e.status {
        case None =>
          alerts := alerts + [Generic(ErrorText(e))];
        case Some(status) =>
          alerts := alerts + AsSeq(StatusAlert(status));
          if status == 401 {
            var fetch := SetToken("", "");
            fetches := fetches + [fetch];
          }
      }
    }

    /** The REST success handler: `setAllData(response.data.results)`, with
        the throw of a failing reduce caught and handled as an error. */
    method ReceiveUsers(results: seq<NestedUser>) returns (alerts: seq<Alert>, fetches: seq<Request>)
      modifies this
      ensures NormalizeAsWritten(results).Some? ==>
        users == Normalize.Normalize(results).users && projects == Normalize.Normalize(results).projects &&
        todos == Normalize.Normalize(results).todos && Consistent(projects, todos) && alerts == [] && fetches == []
      ensures NormalizeAsWritten(results).None? ==>
        users == old(users) && projects == old(projects) && todos == old(todos) &&
        alerts == [Generic(ErrorText(ReduceError))] && fetches == []
      ensures token == old(token) && login == old(login) && notification == old(notification)
    {
      var ok := SetAllData(results);
      if ok {
        alerts, fetches := [], [];
      } else {
        ReduceErrorIsGeneric();
        alerts, fetches := HandleErrors(ReduceError);
      }
    }

    /** The GraphQL success handler: the reshaping of `allUsers`, then the
        same storing as the REST path. */
    method ReceiveAllUsers(allUsers: seq<GqlUser>) returns (alerts: seq<Alert>, fetches: seq<Request>)
      modifies this
      ensures NormalizeAsWritten(FlatUsers(allUsers)).Some? ==>
        users == Normalize.Normalize(FlatUsers(allUsers)).users && projects == Normalize.Normalize(FlatUsers(allUsers)).projects &&
        todos == Normalize.Normalize(FlatUsers(allUsers)).todos && Consistent(projects, todos) && alerts == [] && fetches == []
      ensures NormalizeAsWritten(FlatUsers(allUsers)).None? ==>
        users == old(users) && projects == old(projects) && todos == old(todos) &&
        alerts == [Generic(ErrorText(ReduceError))] && fetches == []
      ensures token == old(token) && login == old(login) && notification == old(notification)
    {
      var reshaped := ReshapeUsers(allUsers);
      alerts, fetches := ReceiveUsers(reshaped);
    }

    /** `deleteProject(id)`: drops the project and every todo of it from
        the state at once, keeping the order of the rest, then sends the
        delete. */
    method DeleteProject(id: int) returns (req: Request)
      modifies this
      ensures projects == Filter(old(projects), ProjectIdOtherThan(id))
      ensures todos == Filter(old(todos), TodoProjectOtherThan(id))
      ensures forall p :: p in projects <==> p in old(projects) && p.id != id
      ensures forall t :: t in todos <==> t in old(todos) && t.project != id
      ensures old(Consistent(projects, todos)) ==> Consistent(projects, todos)
      ensures users == old(users) && token == old(token) && login == old(login)
      ensures notification == old(notification)
      ensures req == Request(Delete, ItemUrl(Domain, ProjectsEndpoint, id), GetHeaders(), NoBody)
    {
      if Consistent(projects, todos) {
        FilterKeepsDistinctIds(projects, ProjectIdOtherThan(id));
        FilterKeepsSorted(projects, ProjectIdOtherThan(id), ProjectUpdated);
        FilterKeepsSorted(todos, TodoProjectOtherThan(id), TodoUpdated);
      }
      projects := Filter(projects, ProjectIdOtherThan(id));
      todos := Filter(todos, TodoProjectOtherThan(id));
      req := Request(Delete, ItemUrl(Domain, ProjectsEndpoint, id), GetHeaders(), NoBody);
    }

    /** `deleteTodo(id)`: drops the todos with that id and nothing else,
        then sends the delete. */
    method DeleteTodo(id: int) returns (req: Request)
      modifies this
      ensures todos == Filter(old(todos), TodoIdOtherThan(id))
      ensures forall t :: t in todos <==> t in old(todos) && t.id != id
      ensures projects == old(projects)
      ensures old(Consistent(projects, todos)) ==> Consistent(projects, todos)
      ensures users == old(users) && token == old(token) && login == old(login)
      ensures notification == old(notification)
      ensures req == Request(Delete, ItemUrl(Domain, TodosEndpoint, id), GetHeaders(), NoBody)
    {
      if Consistent(projects, todos) {
        FilterKeepsSorted(todos, TodoIdOtherThan(id), TodoUpdated);
      }
      todos := Filter(todos, TodoIdOtherThan(id));
      req := Request(Delete, ItemUrl(Domain, TodosEndpoint, id), GetHeaders(), NoBody);
    }

    /** `setNotification(text)`. */
    method SetNotification(text: string)
      modifies this
      ensures notification == text
      ensures users == old(users) && projects == old(projects) && todos == old(todos)
      ensures token == old(token) && login == old(login)
    {
      notification := text;
    }

    /** The success handler of `createDataREST`: the success notice, then a
        full refetch instead of a local insertion. */
    method CreateSucceeded() returns (fetch: Request)
      modifies this
      ensures notification == SuccessNotice
      ensures users == old(users) && projects == old(projects) && todos == old(todos)
      ensures token == old(token) && login == old(login)
      ensures fetch == FetchAllRequest()
    {
      SetNotification(SuccessNotice);
      fetch := FetchAllRequest();
    }
  }

  /** An anonymous client carries no token anywhere in its fetch, and an
      authenticated one sends it in the configured headers. */
  lemma FetchCarriesTokenIffAuthenticated(app: GeneralApp)
    ensures !app.IsAuthenticated() ==>
      app.FetchAllRequest().body.AllUsersQuery? && AuthorizationHeader !in app.FetchAllRequest().body.headers
    ensures app.IsAuthenticated() ==>
      app.FetchAllRequest().headers[AuthorizationHeader] == AuthScheme + app.token
  {
  }

  /** After a cascading delete no todo refers to the deleted project and
      no project has its id. */
  lemma DeleteProjectCascade(ps: seq<Project>, ts: seq<Todo>, id: int)
    ensures forall t :: t in Filter(ts, TodoProjectOtherThan(id)) ==> t.project != id
    ensures forall p :: p in Filter(ps, ProjectIdOtherThan(id)) ==> p.id != id
  {
  }

  /** Deleting an id nothing carries leaves the lists as they were. */
  lemma DeleteOfAbsentId(ps: seq<Project>, ts: seq<Todo>, id: int)
    requires forall i :: 0 <= i < |ps| ==> ps[i].id != id
    requires forall i :: 0 <= i < |ts| ==> ts[i].project != id
    ensures Filter(ps, ProjectIdOtherThan(id)) == ps
    ensures Filter(ts, TodoProjectOtherThan(id)) == ts
  {
    FilterKeepsAll(ps, ProjectIdOtherThan(id));
    FilterKeepsAll(ts, TodoProjectOtherThan(id));
  }

  /** Deleting a todo id no todo has leaves the todos as they were. */
  lemma DeleteOfAbsentTodo(ts: seq<Todo>, id: int)
    requires forall i :: 0 <= i < |ts| ==> ts[i].id != id
    ensures Filter(ts, TodoIdOtherThan(id)) == ts
  {
    FilterKeepsAll(ts, TodoIdOtherThan(id));
  }

  /** The deletes keep the relative order of every two surviving todos and
      of every two surviving projects. */
  lemma DeleteKeepsOrder(ps: seq<Project>, ts: seq<Todo>, id: int)
    ensures forall i, j :: 0 <= i < j < |ts| && ts[i].project != id && ts[j].project != id ==>
      Precedes(Filter(ts, TodoProjectOtherThan(id)), ts[i], ts[j])
    ensures forall i, j :: 0 <= i < j < |ts| && ts[i].id != id && ts[j].id != id ==>
      Precedes(Filter(ts, TodoIdOtherThan(id)), ts[i], ts[j])
    ensures forall i, j :: 0 <= i < j < |ps| && ps[i].id != id && ps[j].id != id ==>
      Precedes(Filter(ps, ProjectIdOtherThan(id)), ps[i], ps[j])
  {
    FilterKeepsAllOrder(ts, TodoProjectOtherThan(id));
    FilterKeepsAllOrder(ts, TodoIdOtherThan(id));
    FilterKeepsAllOrder(ps, ProjectIdOtherThan(id));
  }
}
