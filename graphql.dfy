/** The reshaping the GraphQL success handler applies before `setAllData`:
    id texts become numbers, each todo's nested `user` and `project`
    objects become bare ids, and each project's nested member objects
    become a list of ids. The roles are left as the query returns them,
    so their ids stay text: the result has the REST shape everywhere but
    in the role ids. */
module GraphQL {
  import opened Text
  import opened Entities

  /** A nested object that carries only an id: `{ id }`. */
  datatype Node = Node(id: IdText)

  datatype GqlProject = GqlProject(
    id: IdText, name: string, repository: string, isActive: bool,
    created: string, updated: int, users: seq<Node>)

  datatype GqlTodo = GqlTodo(
    id: IdText, text: string, isActive: bool,
    created: string, updated: int, project: Node, user: Node)

  /** One element of `allUsers` as the query of `getDataGraphQL` asks for
      it; its `roles { id role }` carry text ids. */
  datatype GqlUser = GqlUser(
    id: IdText, username: string, firstName: string, lastName: string,
    middleName: string, email: string, birthdate: string, roles: seq<Role>,
    userProjects: seq<GqlProject>, userTodos: seq<GqlTodo>)

  /** `todo.id = +todo.id; todo.user = +todo.user.id; todo.project = +todo.project.id`. */
  function FlatTodo(t: GqlTodo): (r: Todo)
    ensures r.id == Number(t.id)
    ensures r.user == Number(t.user.id) && r.project == Number(t.project.id)
    ensures r.text == t.text && r.isActive == t.isActive
    ensures r.created == t.created && r.updated == t.updated
  {
    Todo(Number(t.id), t.text, t.isActive, t.created, t.updated, Number(t.project.id), Number(t.user.id))
  }

  /** The pushed `usersArr` of one project: the member ids, same length and order. */
  function MemberIds(ms: seq<Node>): (r: seq<int>)
    ensures |r| == |ms| && forall i :: 0 <= i < |ms| ==> r[i] == Number(ms[i].id)
  {
    seq(|ms|, i requires 0 <= i < |ms| => Number(ms[i].id))
  }

  /** `project.id = +project.id; project.users = usersArr`. */
  function FlatProject(p: GqlProject): (r: Project)
    ensures r.id == Number(p.id) && r.users == MemberIds(p.users)
    ensures r.name == p.name && r.repository == p.repository && r.isActive == p.isActive
    ensures r.created == p.created && r.updated == p.updated
  {
    Project(Number(p.id), p.name, p.repository, p.isActive, p.created, p.updated, MemberIds(p.users))
  }

  function FlatTodos(ts: seq<GqlTodo>): (r: seq<Todo>)
    ensures |r| == |ts| && forall i :: 0 <= i < |ts| ==> r[i] == FlatTodo(ts[i])
  {
    seq(|ts|, i requires 0 <= i < |ts| => FlatTodo(ts[i]))
  }

  function FlatProjects(ps: seq<GqlProject>): (r: seq<Project>)
    ensures |r| == |ps| && forall i :: 0 <= i < |ps| ==> r[i] == FlatProject(ps[i])
  {
    seq(|ps|, i requires 0 <= i < |ps| => FlatProject(ps[i]))
  }

  /** `user.id = +user.id` and the reshaping of the user's todos and
      projects; the roles are not touched. */
  function FlatUser(u: GqlUser): (r: NestedUser)
    ensures r.id == Number(u.id)
    ensures r.userTodos == FlatTodos(u.userTodos) && r.userProjects == FlatProjects(u.userProjects)
    ensures r.username == u.username && r.firstName == u.firstName && r.lastName == u.lastName
    ensures r.middleName == u.middleName && r.email == u.email && r.birthdate == u.birthdate
    ensures r.roles == u.roles
  {
    NestedUser(Number(u.id), u.username, u.firstName, u.lastName, u.middleName, u.email,
      u.birthdate, u.roles, FlatProjects(u.userProjects), FlatTodos(u.userTodos))
  }

  function FlatUsers(us: seq<GqlUser>): (r: seq<NestedUser>)
    ensures |r| == |us| && forall i :: 0 <= i < |us| ==> r[i] == FlatUser(us[i])
  {
    seq(|us|, i requires 0 <= i < |us| => FlatUser(us[i]))
  }

  // The backend's GraphQL rendering of the REST records: every id as its
  // decimal text, every reference as a nested `{ id }` object.

  function NodeOf(id: int): Node {
    Node(IntToString(id))
  }

  /** The text a GraphQL `ID` field gives for a role id. */
  function RoleIdText(id: RoleId): IdText {
    match id
    case NumericId(n) => IntToString(n)
    case TextId(t) => t
  }

  function RenderRole(r: Role): Role {
    Role(TextId(RoleIdText(r.id)), r.role)
  }

  function RenderRoles(rs: seq<Role>): seq<Role> {
    seq(|rs|, i requires 0 <= i < |rs| => RenderRole(rs[i]))
  }

  function RenderTodo(t: Todo): GqlTodo {
    GqlTodo(IntToString(t.id), t.text, t.isActive, t.created, t.updated, NodeOf(t.project), NodeOf(t.user))
  }

  function RenderProject(p: Project): GqlProject {
    GqlProject(IntToString(p.id), p.name, p.repository, p.isActive, p.created, p.updated,
      seq(|p.users|, i requires 0 <= i < |p.users| => NodeOf(p.users[i])))
  }

  function RenderUser(u: NestedUser): GqlUser {
    GqlUser(IntToString(u.id), u.username, u.firstName, u.lastName, u.middleName, u.email,
      u.birthdate, RenderRoles(u.roles),
      seq(|u.userProjects|, i requires 0 <= i < |u.userProjects| => RenderProject(u.userProjects[i])),
      seq(|u.userTodos|, i requires 0 <= i < |u.userTodos| => RenderTodo(u.userTodos[i])))
  }

  function RenderUsers(us: seq<NestedUser>): seq<GqlUser> {
    seq(|us|, i requires 0 <= i < |us| => RenderUser(us[i]))
  }

  lemma FlatTodoOfRendered(t: Todo)
    ensures FlatTodo(RenderTodo(t)) == t
  {
    IntToStringRoundTrip(t.id);
    IntToStringRoundTrip(t.project);
    IntToStringRoundTrip(t.user);
  }

  lemma FlatProjectOfRendered(p: Project)
    ensures FlatProject(RenderProject(p)) == p
  {
    IntToStringRoundTrip(p.id);
    forall i | 0 <= i < |p.users| ensures MemberIds(RenderProject(p).users)[i] == p.users[i] {
      IntToStringRoundTrip(p.users[i]);
    }
  }

  /** Reshaping a rendered user gives back the REST user in every field
      but the roles, which keep the text ids of the GraphQL answer. */
  lemma FlatUserOfRendered(u: NestedUser)
    ensures FlatUser(RenderUser(u)) == u.(roles := RenderRoles(u.roles))
  {
    IntToStringRoundTrip(u.id);
    forall i | 0 <= i < |u.userProjects|
      ensures FlatProjects(RenderUser(u).userProjects)[i] == u.userProjects[i]
    {
      FlatProjectOfRendered(u.userProjects[i]);
    }
    forall i | 0 <= i < |u.userTodos|
      ensures FlatTodos(RenderUser(u).userTodos)[i] == u.userTodos[i]
    {
      FlatTodoOfRendered(u.userTodos[i]);
    }
  }

  /** The reshaped GraphQL answer is the REST answer for the same users,
      except that every role id is text. */
  lemma FlatUsersOfRendered(us: seq<NestedUser>)
    ensures |FlatUsers(RenderUsers(us))| == |us|
    ensures forall i :: 0 <= i < |us| ==>
      FlatUsers(RenderUsers(us))[i] == us[i].(roles := RenderRoles(us[i].roles))
  {
    forall i | 0 <= i < |us| ensures FlatUsers(RenderUsers(us))[i] == us[i].(roles := RenderRoles(us[i].roles)) {
      FlatUserOfRendered(us[i]);
    }
  }

  /** For users without roles the two fetch paths agree exactly. */
  lemma FlatUsersOfRenderedWithoutRoles(us: seq<NestedUser>)
    requires forall i :: 0 <= i < |us| ==> us[i].roles == []
    ensures FlatUsers(RenderUsers(us)) == us
  {
    FlatUsersOfRendered(us);
    forall i | 0 <= i < |us| ensures FlatUsers(RenderUsers(us))[i] == us[i] {
      assert RenderRoles(us[i].roles) == [];
    }
  }

  /** A REST user with a numeric role id does not come back from the
      GraphQL path: the reshaping leaves that role's id as text. */
  lemma RolesStayText(u: NestedUser, k: nat)
    requires k < |u.roles| && u.roles[k].id.NumericId?
    ensures FlatUser(RenderUser(u)).roles[k].id == TextId(IntToString(u.roles[k].id.n))
    ensures FlatUser(RenderUser(u)) != u
  {
    assert FlatUser(RenderUser(u)).roles[k] == RenderRole(u.roles[k]);
  }

  /** `project.users.map(user => { usersArr.push(+user.id); })`. */
  method ReshapeMembers(ms: seq<Node>) returns (usersArr: seq<int>)
    ensures usersArr == MemberIds(ms)
  {
    usersArr := [];
    var i := 0;
    while i < |ms|
      invariant 0 <= i <= |ms|
      invariant usersArr == MemberIds(ms[..i])
    {
      assert ms[..i + 1][..i] == ms[..i];
      usersArr := usersArr + [Number(ms[i].id)];
      i := i + 1;
    }
    assert ms[..i] == ms;
  }

  /** `user.userTodos.map(todo => { … })`, each todo reshaped in turn. */
  method ReshapeTodos(ts: seq<GqlTodo>) returns (r: seq<Todo>)
    ensures r == FlatTodos(ts)
  {
    r := [];
    var i := 0;
    while i < |ts|
      invariant 0 <= i <= |ts|
      invariant |r| == i && forall k :: 0 <= k < i ==> r[k] == FlatTodo(ts[k])
    {
      var t := ts[i];
      r := r + [Todo(Number(t.id), t.text, t.isActive, t.created, t.updated, Number(t.project.id), Number(t.user.id))];
      i := i + 1;
    }
  }

  /** `user.userProjects.map(project => { … })`, each project reshaped in turn. */
  method ReshapeProjects(ps: seq<GqlProject>) returns (r: seq<Project>)
    ensures r == FlatProjects(ps)
  {
    r := [];
    var i := 0;
    while i < |ps|
      invariant 0 <= i <= |ps|
      invariant |r| == i && forall k :: 0 <= k < i ==> r[k] == FlatProject(ps[k])
    {
      var p := ps[i];
      var usersArr := ReshapeMembers(p.users);
      r := r + [Project(Number(p.id), p.name, p.repository, p.isActive, p.created, p.updated, usersArr)];
      i := i + 1;
    }
  }

  /** The reshaping loop of the GraphQL success handler over `allUsers`. */
  method ReshapeUsers(us: seq<GqlUser>) returns (r: seq<NestedUser>)
    ensures r == FlatUsers(us)
  {
    r := [];
    var i := 0;
    while i < |us|
      invariant 0 <= i <= |us|
      invariant |r| == i && forall k :: 0 <= k < i ==> r[k] == FlatUser(us[k])
    {
      var u := us[i];
      var todos := ReshapeTodos(u.userTodos);
      var projects := ReshapeProjects(u.userProjects);
      r := r + [NestedUser(Number(u.id), u.username, u.firstName, u.lastName, u.middleName, u.email,
        u.birthdate, u.roles, projects, todos)];
      i := i + 1;
    }
  }
}
