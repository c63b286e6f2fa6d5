/** The records the client holds, in the flat shape the REST API returns
    them (camel-case field names as the backend renders them). Every
    `updated` timestamp is an abstract integer: a later date is a larger
    number. */
module Entities {
  import opened Text

  /** The id of a role as a user record carries it: a number in a REST
      answer; the text of a GraphQL `ID` in a GraphQL answer, which the
      reshaping never converts. */
  datatype RoleId = NumericId(n: int) | TextId(text: IdText)

  /** A role of a user, `{id, role}`, carried through unchanged. */
  datatype Role = Role(id: RoleId, role: string)

  /** A project; `users` holds the ids of its members. */
  datatype Project = Project(
    id: int, name: string, repository: string, isActive: bool,
    created: string, updated: int, users: seq<int>)

  /** A todo; `project` and `user` hold bare ids, never nested objects. */
  datatype Todo = Todo(
    id: int, text: string, isActive: bool,
    created: string, updated: int, project: int, user: int)

  /** A user as the client stores it, without the nested lists. */
  datatype User = User(
    id: int, username: string, firstName: string, lastName: string,
    middleName: string, email: string, birthdate: string, roles: seq<Role>)

  /** A user as a fetch returns it: the profile fields plus the user's
      own projects and todos. */
  datatype NestedUser = NestedUser(
    id: int, username: string, firstName: string, lastName: string,
    middleName: string, email: string, birthdate: string, roles: seq<Role>,
    userProjects: seq<Project>, userTodos: seq<Todo>)

  /** The sort key of a project. */
  function ProjectUpdated(p: Project): int {
    p.updated
  }

  /** The sort key of a todo. */
  function TodoUpdated(t: Todo): int {
    t.updated
  }
}
