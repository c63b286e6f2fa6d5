/** `setAllData`: the users as fetched (either path) become three flat
    collections — the users without their nested lists, the projects of all
    users de-duplicated by id, and the todos of all users — with projects
    and todos sorted by `updated`, newest first. */
module Normalize {
  import opened Seqs
  import opened Entities
  import opened StableSort

  /** The ids of a list of projects, `projects.map(project => project.id)`. */
  function Ids(ps: seq<Project>): seq<int> {
    seq(|ps|, i requires 0 <= i < |ps| => ps[i].id)
  }

  /** `projects.find(project => project.id === id)`: the first project with
      that id, if any. */
  function FindById(ps: seq<Project>, id: int): (r: Option<Project>)
    ensures r.Some? <==> id in Ids(ps)
    ensures r.Some? ==> r.value == ps[FirstIndex(Ids(ps), id)]
  {
    if ps == [] then None
    else if ps[0].id == id then
      assert Ids(ps)[0] == id;
      Some(ps[0])
    else
      assert Ids(ps) == [ps[0].id] + Ids(ps[1..]);
      FindById(ps[1..], id)
  }

  /** `ids.map(id => projects.find(project => project.id === id))` for ids
      that all occur. */
  function FindAll(ps: seq<Project>, ids: seq<int>): (r: seq<Project>)
    requires forall k :: 0 <= k < |ids| ==> ids[k] in Ids(ps)
    ensures Ids(r) == ids
    ensures forall k :: 0 <= k < |r| ==> r[k] == ps[FirstIndex(Ids(ps), ids[k])]
  {
    var r := seq(|ids|, k requires 0 <= k < |ids| => FindById(ps, ids[k]).value);
    assert Ids(r) == ids;
    r
  }

  /** The de-duplication of `setAllData`:
      `[...new Set(projects.map(p => p.id))].map(id => projects.find(p => p.id === id))`. */
  function DedupById(ps: seq<Project>): (r: seq<Project>)
    ensures forall i, j :: 0 <= i < j < |r| ==> r[i].id != r[j].id
    ensures forall id :: id in Ids(r) <==> id in Ids(ps)
    ensures forall k :: 0 <= k < |r| ==> r[k].id in Ids(ps) && r[k] == ps[FirstIndex(Ids(ps), r[k].id)]
    ensures forall i, j :: 0 <= i < j < |r| ==>
      r[i].id in Ids(ps) && r[j].id in Ids(ps) &&
      FirstIndex(Ids(ps), r[i].id) < FirstIndex(Ids(ps), r[j].id)
  {
    var ids := SetSpread(Ids(ps));
    SetSpreadOrder(Ids(ps));
    var r := FindAll(ps, ids);
    assert forall k :: 0 <= k < |r| ==> r[k].id == ids[k];
    r
  }

  /** Every id of a list of projects is distinct. */
  ghost predicate DistinctIds(ps: seq<Project>) {
    forall i, j :: 0 <= i < j < |ps| ==> ps[i].id != ps[j].id
  }

  /** `data.map(user => user.userProjects)`. */
  function ProjectLists(data: seq<NestedUser>): seq<seq<Project>> {
    seq(|data|, i requires 0 <= i < |data| => data[i].userProjects)
  }

  /** `data.map(user => user.userTodos)`. */
  function TodoLists(data: seq<NestedUser>): seq<seq<Todo>> {
    seq(|data|, i requires 0 <= i < |data| => data[i].userTodos)
  }

  /** A user with `delete user.userProjects; delete user.userTodos` applied:
      every other field keeps its value. */
  function StripUser(n: NestedUser): (u: User)
    ensures u.id == n.id && u.username == n.username
    ensures u.firstName == n.firstName && u.lastName == n.lastName && u.middleName == n.middleName
    ensures u.email == n.email && u.birthdate == n.birthdate && u.roles == n.roles
  {
    User(n.id, n.username, n.firstName, n.lastName, n.middleName, n.email, n.birthdate, n.roles)
  }

  /** The copied and stripped users, one per fetched user, in order. */
  function StripUsers(data: seq<NestedUser>): seq<User> {
    seq(|data|, i requires 0 <= i < |data| => StripUser(data[i]))
  }

  /** The stripping loop of `setAllData` (`users.map(user => { delete …; })`
      over the deep copy): the input is left as it is. */
  method StripAll(data: seq<NestedUser>) returns (users: seq<User>)
    ensures users == StripUsers(data)
  {
    users := [];
    var i := 0;
    while i < |data|
      invariant 0 <= i <= |data|
      invariant |users| == i
      invariant forall k :: 0 <= k < i ==> users[k] == StripUser(data[k])
    {
      users := users + [StripUser(data[i])];
      i := i + 1;
    }
    assert users == StripUsers(data);
  }

  /** The three collections `setAllData` stores. */
  datatype Snapshot = Snapshot(users: seq<User>, projects: seq<Project>, todos: seq<Todo>)

  /** What `setAllData` would store if its two reduces had the initial
      value `[]`: total on every input. */
  function Normalize(data: seq<NestedUser>): (r: Snapshot)
    ensures |r.users| == |data|
    ensures forall i :: 0 <= i < |data| ==> r.users[i] == StripUser(data[i])
    ensures |r.todos| == |Flatten(TodoLists(data))|
  {
    Snapshot(
      StripUsers(data),
      Sort(DedupById(Flatten(ProjectLists(data))), ProjectUpdated),
      Sort(Flatten(TodoLists(data)), TodoUpdated))
  }

  /** The projects step of `setAllData` as written: the reduce throws
      when no user has a project; otherwise the de-duplicated projects,
      sorted. */
  function ProjectsAsWritten(data: seq<NestedUser>): (r: Option<seq<Project>>)
    ensures r.None? <==> forall i :: 0 <= i < |data| ==> data[i].userProjects == []
  {
    assert forall i :: 0 <= i < |data| ==> ProjectLists(data)[i] == data[i].userProjects;
    match FlattenAsWritten(ProjectLists(data))
    case None => None
    case Some(ps) => Some(Sort(DedupById(ps), ProjectUpdated))
  }

  /** The todos step of `setAllData` as written: the reduce throws when no
      user has a todo; otherwise the todos, sorted. */
  function TodosAsWritten(data: seq<NestedUser>): (r: Option<seq<Todo>>)
    ensures r.None? <==> forall i :: 0 <= i < |data| ==> data[i].userTodos == []
  {
    assert forall i :: 0 <= i < |data| ==> TodoLists(data)[i] == data[i].userTodos;
    match FlattenAsWritten(TodoLists(data))
    case None => None
    case Some(ts) => Some(Sort(ts, TodoUpdated))
  }

  /** What `setAllData` does as written: when no user has a project, or no
      user has a todo, a reduce without an initial value throws and nothing
      is stored. */
  function NormalizeAsWritten(data: seq<NestedUser>): (r: Option<Snapshot>)
    ensures r.None? <==>
      (forall i :: 0 <= i < |data| ==> data[i].userProjects == []) ||
      (forall i :: 0 <= i < |data| ==> data[i].userTodos == [])
  {
    match ProjectsAsWritten(data)
    case None => None
    case Some(ps) =>
      match TodosAsWritten(data)
      case None => None
      case Some(ts) =>
        Some(Snapshot(StripUsers(data), ps, ts))
  }

  /** Where the as-written projects step does not throw, it computes the
      corrected projects. */
  lemma ProjectsAgree(data: seq<NestedUser>)
    ensures ProjectsAsWritten(data).Some? ==> ProjectsAsWritten(data).value == Normalize(data).projects
  {
  }

  /** Where the as-written todos step does not throw, it computes the
      corrected todos. */
  lemma TodosAgree(data: seq<NestedUser>)
    ensures TodosAsWritten(data).Some? ==> TodosAsWritten(data).value == Normalize(data).todos
  {
  }

  /** Where `setAllData` as written stores anything, it stores what the
      corrected normalisation computes. */
  lemma AsWrittenAgrees(data: seq<NestedUser>)
    ensures NormalizeAsWritten(data).Some? ==> NormalizeAsWritten(data).value == Normalize(data)
  {
    ProjectsAgree(data);
    TodosAgree(data);
  }

  /** The projects step of `setAllData`: flatten (throwing when no user
      has a project), de-duplicate, then sort a fresh array in place. */
  method CollectProjects(data: seq<NestedUser>) returns (r: Option<seq<Project>>)
    ensures r == ProjectsAsWritten(data)
  {
    var flat := FlattenAsWritten(ProjectLists(data));
    if flat.None? {
      return None;
    }
    var unique := DedupById(flat.value);
    var sorted := SortedCopy(unique, ProjectUpdated);
    return Some(sorted);
  }

  /** The todos step of `setAllData`: flatten (throwing when no user has a
      todo), then sort a fresh array in place. */
  method CollectTodos(data: seq<NestedUser>) returns (r: Option<seq<Todo>>)
    ensures r == TodosAsWritten(data)
  {
    var flat := FlattenAsWritten(TodoLists(data));
    if flat.None? {
      return None;
    }
    var sorted := SortedCopy(flat.value, TodoUpdated);
    return Some(sorted);
  }

  /** The computation of `setAllData` before its `setState`: the stripped
      users, then the projects and the todos; nothing when a reduce throws. */
  method Collect(data: seq<NestedUser>) returns (r: Option<Snapshot>)
    ensures r == NormalizeAsWritten(data)
  {
    var users := StripAll(data);
    var projects := CollectProjects(data);
    if projects.None? {
      return None;
    }
    var todos := CollectTodos(data);
    if todos.None? {
      return None;
    }
    return Some(Snapshot(users, projects.value, todos.value));
  }

  /** An input that makes `setAllData` fail as written and that the
      corrected normalisation accepts: a single user with todos and no
      project. */
  lemma NoProjectsFails(u: NestedUser)
    requires u.userProjects == [] && u.userTodos != []
    ensures NormalizeAsWritten([u]).None?
    ensures Normalize([u]) == Snapshot([StripUser(u)], [], Sort(u.userTodos, TodoUpdated))
  {
    assert ProjectLists([u]) == [[]];
    assert TodoLists([u]) == [u.userTodos];
    assert Flatten(ProjectLists([u])) == [];
    assert Flatten([u.userTodos]) == u.userTodos + Concat([]);
    assert Flatten(TodoLists([u])) == u.userTodos;
    assert Ids(DedupById([])) == [];
    assert DedupById([]) == [];
    assert Sort([], ProjectUpdated) == [];
    assert StripUsers([u]) == [StripUser(u)];
  }

  /** A reordering of a list with distinct ids has distinct ids and the
      same set of ids. */
  lemma PermutationKeepsIds(d: seq<Project>, r: seq<Project>)
    requires multiset(r) == multiset(d)
    ensures DistinctIds(d) ==> DistinctIds(r)
    ensures forall id :: id in Ids(r) <==> id in Ids(d)
  {
    if DistinctIds(d) {
      forall i, j | 0 <= i < j < |r| ensures r[i].id != r[j].id {
        assert r[i] in multiset(d) && r[j] in multiset(d);
        var a :| 0 <= a < |d| && d[a] == r[i];
        var b :| 0 <= b < |d| && d[b] == r[j];
        if r[i].id == r[j].id {
          assert a == b;
          OneCopy(d, a);
          TwoCopies(r, i, j);
        }
      }
    }
    forall id ensures id in Ids(r) <==> id in Ids(d) {
      if id in Ids(r) {
        var k :| 0 <= k < |r| && Ids(r)[k] == id;
        assert r[k] in multiset(d);
        var a :| 0 <= a < |d| && d[a] == r[k];
        assert Ids(d)[a] == id;
      }
      if id in Ids(d) {
        var k :| 0 <= k < |d| && Ids(d)[k] == id;
        assert d[k] in multiset(r);
        var a :| 0 <= a < |r| && r[a] == d[k];
        assert Ids(r)[a] == id;
      }
    }
  }

  /** An id occurs among the flattened projects exactly when some user
      lists a project with that id. */
  lemma FlattenedIds(data: seq<NestedUser>, id: int)
    ensures id in Ids(Flatten(ProjectLists(data))) <==>
      exists i, j :: 0 <= i < |data| && 0 <= j < |data[i].userProjects| && data[i].userProjects[j].id == id
  {
    var all := Flatten(ProjectLists(data));
    if id in Ids(all) {
      var k :| 0 <= k < |all| && Ids(all)[k] == id;
      InConcat(ProjectLists(data), all[k]);
      var i :| 0 <= i < |ProjectLists(data)| && all[k] in ProjectLists(data)[i];
      var j :| 0 <= j < |data[i].userProjects| && data[i].userProjects[j] == all[k];
    }
    if exists i, j :: 0 <= i < |data| && 0 <= j < |data[i].userProjects| && data[i].userProjects[j].id == id {
      var i, j :| 0 <= i < |data| && 0 <= j < |data[i].userProjects| && data[i].userProjects[j].id == id;
      var p := data[i].userProjects[j];
      assert p in ProjectLists(data)[i];
      InConcat(ProjectLists(data), p);
      assert p in all;
      var k := FirstIndex(all, p);
      assert Ids(all)[k] == id;
    }
  }

  /** The projects have distinct ids: exactly one per id found in any
      user's projects. Each kept entry is the first project with that id
      across the users in input order. */
  lemma NormalizeProjectsUnique(data: seq<NestedUser>)
    ensures DistinctIds(Normalize(data).projects)
    ensures forall id :: id in Ids(Normalize(data).projects) <==>
      exists i, j :: 0 <= i < |data| && 0 <= j < |data[i].userProjects| && data[i].userProjects[j].id == id
    ensures forall p :: p in Normalize(data).projects ==>
      var all := Flatten(ProjectLists(data));
      p.id in Ids(all) && p == all[FirstIndex(Ids(all), p.id)]
  {
    var all := Flatten(ProjectLists(data));
    var d := DedupById(all);
    var r := Normalize(data).projects;
    SortPermutes(d, ProjectUpdated);
    PermutationKeepsIds(d, r);
    forall id ensures id in Ids(r) <==>
      exists i, j :: 0 <= i < |data| && 0 <= j < |data[i].userProjects| && data[i].userProjects[j].id == id
    {
      FlattenedIds(data, id);
    }
    forall p | p in r ensures p.id in Ids(all) && p == all[FirstIndex(Ids(all), p.id)] {
      assert p in multiset(d);
      var a :| 0 <= a < |d| && d[a] == p;
    }
  }

  /** The invariant the client keeps over its collections holds of every
      normalised snapshot. */
  lemma NormalizedConsistent(data: seq<NestedUser>)
    ensures DistinctIds(Normalize(data).projects)
    ensures SortedDesc(Normalize(data).projects, ProjectUpdated) && SortedDesc(Normalize(data).todos, TodoUpdated)
  {
    NormalizeProjectsUnique(data);
    NormalizeSorted(data);
  }

  lemma OneCopy(d: seq<Project>, a: nat)
    requires DistinctIds(d) && a < |d|
    ensures multiset(d)[d[a]] == 1
  {
    var x := d[a];
    assert d == d[..a] + [x] + d[a + 1..];
    assert x !in d[..a];
    assert x !in d[a + 1..];
  }

  lemma TwoCopies<T>(r: seq<T>, i: nat, j: nat)
    requires i < j < |r| && r[i] == r[j]
    ensures multiset(r)[r[i]] >= 2
  {
    assert r == r[..i] + [r[i]] + r[i + 1..j] + [r[j]] + r[j + 1..];
  }

  /** Projects and todos are sorted by `updated`, newest first, and each is
      a permutation of its unsorted list: the de-duplicated projects, and
      every user's todos concatenated without de-duplication. */
  lemma NormalizeSorted(data: seq<NestedUser>)
    ensures SortedDesc(Normalize(data).projects, ProjectUpdated)
    ensures SortedDesc(Normalize(data).todos, TodoUpdated)
    ensures multiset(Normalize(data).projects) == multiset(DedupById(Flatten(ProjectLists(data))))
    ensures multiset(Normalize(data).todos) == multiset(Flatten(TodoLists(data)))
  {
    SortIsSorted(DedupById(Flatten(ProjectLists(data))), ProjectUpdated);
    SortIsSorted(Flatten(TodoLists(data)), TodoUpdated);
    SortPermutes(DedupById(Flatten(ProjectLists(data))), ProjectUpdated);
    SortPermutes(Flatten(TodoLists(data)), TodoUpdated);
  }

  /** Entries with equal `updated` keep their order: projects in the order
      of their first occurrence, todos in the order of the users and of each
      user's list. */
  lemma NormalizeStable(data: seq<NestedUser>, k: int)
    ensures WithKey(Normalize(data).projects, ProjectUpdated, k) ==
      WithKey(DedupById(Flatten(ProjectLists(data))), ProjectUpdated, k)
    ensures WithKey(Normalize(data).todos, TodoUpdated, k) ==
      WithKey(Flatten(TodoLists(data)), TodoUpdated, k)
  {
    SortIsStable(DedupById(Flatten(ProjectLists(data))), ProjectUpdated, k);
    SortIsStable(Flatten(TodoLists(data)), TodoUpdated, k);
  }

  lemma FlattenOfTwo(a: NestedUser, b: NestedUser)
    ensures Flatten(ProjectLists([a, b])) == a.userProjects + b.userProjects
    ensures Flatten(TodoLists([a, b])) == a.userTodos + b.userTodos
  {
    assert ProjectLists([a, b]) == [a.userProjects, b.userProjects];
    assert TodoLists([a, b]) == [a.userTodos, b.userTodos];
    assert [a.userProjects, b.userProjects][1..] == [b.userProjects];
    assert [a.userTodos, b.userTodos][1..] == [b.userTodos];
  }

  lemma DedupOfRepeat(p: Project, q: Project)
    requires p.id != q.id
    ensures DedupById([p, q, p]) == [p, q]
  {
    assert Ids([p, q, p]) == [p.id, q.id, p.id];
    var x, y := p.id, q.id;
    assert [x][..0] == [];
    assert SetSpread([x]) == [x];
    assert [x, y][..1] == [x];
    assert SetSpread([x, y]) == [x, y];
    assert [x, y, x][..2] == [x, y];
    assert SetSpread([x, y, x]) == [x, y];
  }

  lemma SortOfPair(p: Project, q: Project)
    requires p.updated < q.updated
    ensures Sort([p, q], ProjectUpdated) == [q, p]
  {
    assert Sort([p], ProjectUpdated) == [p] by {
      assert [p][..0] == [];
    }
    assert Insert([p], q, ProjectUpdated) == [q, p] by {
      assert [p][..0] == [];
      assert Insert([], q, ProjectUpdated) == [q];
    }
    assert [p, q][..1] == [p];
  }

  lemma TwoUsersNormalized(a: NestedUser, b: NestedUser, p: Project, q: Project, t: Todo)
    requires p.id == 7 && p.updated == 2 && q.id == 9 && q.updated == 5
    requires a.userProjects == [p, q] && a.userTodos == []
    requires b.userProjects == [p] && b.userTodos == [t]
    ensures Normalize([a, b]) == Snapshot(StripUsers([a, b]), [q, p], [t])
  {
    FlattenOfTwo(a, b);
    assert a.userProjects + b.userProjects == [p, q, p];
    assert a.userTodos + b.userTodos == [t];
    DedupOfRepeat(p, q);
    SortOfPair(p, q);
    assert Sort([t], TodoUpdated) == [t] by {
      assert [t][..0] == [];
    }
  }

  /** Two users both in project P (id 7, updated on day 2), and project Q
      (id 9, updated on day 5) listed only under the first user: the
      projects come out as [Q, P], with P once, holding both members. */
  lemma TwoUsersShareAProject(a: NestedUser, b: NestedUser, p: Project, q: Project, t: Todo)
    requires p.id == 7 && p.updated == 2 && p.users == [a.id, b.id]
    requires q.id == 9 && q.updated == 5
    requires a.userProjects == [p, q] && a.userTodos == []
    requires b.userProjects == [p] && b.userTodos == [t]
    ensures NormalizeAsWritten([a, b]) == Some(Snapshot(StripUsers([a, b]), [q, p], [t]))
  {
    AsWrittenOfTwo(a, b);
    TwoUsersNormalized(a, b, p, q, t);
  }

  /** Two users, the first with a project and the second with a todo: the
      reduces succeed, with the corrected result. */
  lemma AsWrittenOfTwo(a: NestedUser, b: NestedUser)
    requires a.userProjects != [] && b.userTodos != []
    ensures NormalizeAsWritten([a, b]) == Some(Normalize([a, b]))
  {
    AsWrittenAgrees([a, b]);
    assert [a, b][0].userProjects != [] && [a, b][1].userTodos != [];
  }
}
