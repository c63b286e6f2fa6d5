# GeneralApp data-sync layer in Dafny

This project models the client side of a small projects-and-todos
application: the `GeneralApp` component of `frontend/src/GeneralApp.js`,
without its rendering. The component keeps:

- the token and login of the signed-in user;
- the three collections every view reads: users, projects and todos;
- a notification text.

It fetches everything as a list of users with nested projects and todos.
The REST endpoint is used when a token is held, the GraphQL endpoint
otherwise. `setAllData` flattens that list into three collections: users
without their lists, projects de-duplicated by id, and todos. Projects and
todos are sorted newest first. Deletes are optimistic: the state is
filtered first, then the delete request is sent. `handleErrors` turns a
failed call into alerts and may clear the token.

The model is in Dafny terms:

- The state is the class `App.GeneralApp`. Its fields are `users`,
  `projects`, `todos`, `token`, `login` and `notification`.
- Its methods change those fields, and each one states the whole new
  state.
- A request the component would send is returned as a `Request` value:
  verb, URL, header map and body. The fetches, the token request and the
  deletes are modelled; the create posts are not (see "Left out").
- Responses and errors come in as parameters.
- The pure parts are functions, with lemmas about them:
  - the normalisation of `setAllData` (module `Normalize`);
  - the GraphQL reshaping (`GraphQL`);
  - the stable sort (`StableSort`);
  - URL and header shaping (`Requests`, `App`);
  - error classification (`Errors`).
- The steps the source performs with loops or in place are methods with
  loop invariants, proved equal to those functions:
  - the `map`/`push` reshaping loops;
  - the stripping loop;
  - the in-place sort.

Modules follow the program's structure:

| module | file | contents |
|---|---|---|
| `Seqs` | seqs.dfy | `filter`, the concatenating `reduce` with and without an initial value, `[...new Set(s)]`, first index |
| `Text` | text.dfy | `indexOf`, decimal text of integers, unary plus on id text |
| `Entities` | entities.dfy | the records: user, project, todo, role |
| `StableSort` | stable_sort.dfy | `sort` with the newest-first comparator: specification and in-place array method |
| `Normalize` | normalize.dfy | `setAllData`'s computation, as written and corrected |
| `GraphQL` | graphql.dfy | the reshaping of the GraphQL answer into the REST shape |
| `Requests` | requests.dfy | endpoints, URLs and request values |
| `Errors` | errors.dfy | the classification of `handleErrors` |
| `App` | app.dfy | the `GeneralApp` class |

## Model

| member | source | states |
|---|---|---|
| App.GeneralApp.constructor | frontend/src/GeneralApp.js:35-57 | the initial state: no users, projects or todos, empty token, login and notification |
| App.GeneralApp.IsAuthenticated | frontend/src/GeneralApp.js:102-104 | authenticated exactly when the token is non-empty |
| App.GeneralApp.GetHeaders | frontend/src/GeneralApp.js:84-96 | the JSON content type is always present; `Authorization` is present iff authenticated; its value is then `Bear_R@d1f ` followed by the token; no other header |
| App.GeneralApp.FetchAllRequest | frontend/src/GeneralApp.js:152-163 | the GraphQL POST (headers inside the body) iff not authenticated; otherwise the GET of the paged users list with the headers |
| App.GeneralApp.GetToken | frontend/src/GeneralApp.js:71-77 | `getToken`, run by `componentDidMount`: token and login become the cookie values, a missing cookie giving none; authenticated iff a non-empty token cookie exists; the collections and notification are unchanged; the refetch is `getAllData`'s request |
| App.FetchCarriesTokenIffAuthenticated | frontend/src/GeneralApp.js:84-104 | an anonymous fetch carries no `Authorization` header; an authenticated one sends `Bear_R@d1f <token>` |
| App.GeneralApp.SetToken | frontend/src/GeneralApp.js:130-140 | token and login take the given values, the collections and notification are unchanged, and the refetch is `getAllData`'s request |
| App.GeneralApp.Logout | frontend/src/GeneralApp.js:145-147 | token and login become empty, so the client is no longer authenticated, and the refetch is the anonymous GraphQL query |
| App.GeneralApp.Auth | frontend/src/GeneralApp.js:111-116 | the token request: a POST of the login and password to `${domain}/api/token/` with no header at all, so no `Authorization` even when a token is held |
| App.GeneralApp.AuthAnswered | frontend/src/GeneralApp.js:116-122 | a success stores the login and refetches with no alert; its `access` field, when present, becomes the token; without one the client holds no token and refetches through GraphQL; a refusal raises the wrong-credentials alert and changes nothing |
| App.GeneralApp.SetAllData | frontend/src/GeneralApp.js:394-432 | stores iff the as-written reduce succeeds; the stored collections are the normalised snapshot, and they satisfy the consistency invariant; on failure nothing changes; token, login and notification never change |
| App.GeneralApp.Store | frontend/src/GeneralApp.js:427-431 | the `setState` of the three collections, nothing else |
| App.GeneralApp.HandleErrors | frontend/src/GeneralApp.js:487-516 | the alerts are the classification's; one `setToken("", "")` and refetch per reset; the token and login are cleared iff there is a reset; the collections are unchanged |
| App.GeneralApp.ReceiveUsers | frontend/src/GeneralApp.js:283-294 | the REST success handler: the normalised snapshot when the reduce succeeds; otherwise the thrown TypeError reaches `handleErrors`, raising one generic alert and clearing nothing |
| App.GeneralApp.ReceiveAllUsers | frontend/src/GeneralApp.js:350-387 | the GraphQL success handler: reshape, then the same outcome as the REST path on the reshaped users |
| App.GeneralApp.DeleteProject | frontend/src/GeneralApp.js:213-222 | projects lose exactly those with that id, and todos lose exactly those of that project; the rest keeps its order; the consistency invariant is kept; users, token, login and notification are unchanged; the delete goes to `${domain}/api/projects/${id}` |
| App.GeneralApp.DeleteTodo | frontend/src/GeneralApp.js:230-236 | todos lose exactly those with that id; projects are unchanged; the consistency invariant is kept; the delete goes to `${domain}/api/todos/${id}` |
| App.DeleteProjectCascade | frontend/src/GeneralApp.js:217-218 | after the cascade no todo refers to the deleted project and no project has its id |
| App.DeleteOfAbsentId | frontend/src/GeneralApp.js:217-218 | deleting a project id that no project and no todo carries leaves both lists exactly as they were |
| App.DeleteOfAbsentTodo | frontend/src/GeneralApp.js:233 | deleting a todo id that no todo has leaves the todos exactly as they were |
| App.DeleteKeepsOrder | frontend/src/GeneralApp.js:217-233 | every two surviving todos, under either delete, and every two surviving projects keep their relative order |
| App.GeneralApp.SetNotification | frontend/src/GeneralApp.js:530-534 | the notification becomes the text; nothing else changes |
| App.GeneralApp.CreateSucceeded | frontend/src/GeneralApp.js:442-453 | a successful create sets the success notice and refetches everything |
| App.FilterKeepsSorted | frontend/src/GeneralApp.js:217-218 | filtering a newest-first list leaves it newest first |
| App.FilterKeepsDistinctIds | frontend/src/GeneralApp.js:217 | filtering a list with distinct project ids leaves them distinct |
| App.ReduceMessageUnmarked | frontend/src/GeneralApp.js:489 | the reduce's TypeError message does not contain `ISO-8859-1` |
| App.ReduceErrorIsGeneric | frontend/src/GeneralApp.js:489-516 | the reduce's TypeError, which has no request, is classified as one generic alert with no token reset |
| Errors.StatusAlert | frontend/src/GeneralApp.js:494-512 | no alert iff the status is outside {0, 400, 401, 403, 404, 500}; the expiry alert exactly for 401 |
| Errors.Classify | frontend/src/GeneralApp.js:487-516 | the resets: one for the marker plus one for status 401, positive iff either holds; the exact alert list: the malformed-token alert iff the message contains `ISO-8859-1`, then the generic alert when there is no request, else the status alert; an unknown status adds none; at most two alerts |
| Errors.BothAlertsFire | frontend/src/GeneralApp.js:489-497 | the two checks are independent: a marked 401 error raises both alerts and clears the token twice |
| Errors.UnmarkedWithoutRequest | frontend/src/GeneralApp.js:513-515 | an unmarked error without a request raises only the generic alert and no reset |
| Errors.NoMarkerWithoutI | frontend/src/GeneralApp.js:489 | a text without the letter `I` cannot contain the marker |
| Errors.ErrorText | frontend/src/GeneralApp.js:514 | `${error}` as `Error.prototype.toString` (section 20.5.3.4 of ECMAScript 2023) writes it: the message alone when the name is empty, the name alone when the message is empty, otherwise the name, then `: `, then the message, and nothing else |
| Text.IndexFrom | frontend/src/GeneralApp.js:489 | `indexOf` from a position: -1 iff no occurrence at or after it, else the first occurrence |
| Text.IndexOf | frontend/src/GeneralApp.js:489 | `indexOf(pat) !== -1` iff the pattern occurs; the result is the first occurrence |
| Text.NatToString | frontend/src/GeneralApp.js:469 | the decimal text of a natural number: digits whose value is the number, with no leading zero |
| Text.IntToString | frontend/src/GeneralApp.js:469 | `${id}` of an integer is an integer text |
| Text.Number | frontend/src/GeneralApp.js:358 | unary plus on an id text: non-positive for a text with a minus sign, non-negative otherwise |
| Text.IntToStringRoundTrip | frontend/src/GeneralApp.js:358 | unary plus on an integer's decimal text gives the integer back |
| Requests.ItemUrl | frontend/src/GeneralApp.js:469 | the delete URL is the endpoint URL followed by an integer text |
| Requests.ItemUrlRoundTrip | frontend/src/GeneralApp.js:469 | the last path segment of the delete URL reads back as the id |
| Requests.ListUrl | frontend/src/GeneralApp.js:282 | the list URL starts with the endpoint URL and `?limit=`, and ends with `/` |
| Requests.NoAmpersandInInteger | frontend/src/GeneralApp.js:282 | the decimal text of an integer has no `&` |
| Requests.FirstAmpersand | frontend/src/GeneralApp.js:282 | the first `&` of `a&b` is the one after an `&`-free `a` |
| Requests.QueryOf | frontend/src/GeneralApp.js:282 | a query `?limit=a&offset=b` with an `&`-free `a` splits back into `a` and `b` |
| Requests.ListUrlQuery | frontend/src/GeneralApp.js:282 | the list URL's limit value reads back as the limit; its offset value is the offset followed by `/` |
| Requests.OffsetValueKeepsSlash | frontend/src/GeneralApp.js:282 | the offset value the server receives is not an integer text |
| Seqs.Filter | frontend/src/GeneralApp.js:217-218 | `filter`: no longer than its input, and an element is kept iff it is in the input and passes |
| Seqs.FilterCounts | frontend/src/GeneralApp.js:217-218 | the filter keeps every copy of a passing value and none of a failing one |
| Seqs.FilterConcat | frontend/src/GeneralApp.js:217-218 | filtering a concatenation is the concatenation of the filtered parts |
| Seqs.FilterKeepsAll | frontend/src/GeneralApp.js:406 | a filter every element passes returns its input |
| Seqs.FilterKeepsOrder | frontend/src/GeneralApp.js:217-218 | two kept elements appear in the result in their original order |
| Seqs.FilterKeepsAllOrder | frontend/src/GeneralApp.js:217-218 | every pair of kept elements appears in the result in its original order |
| Seqs.Concat | frontend/src/GeneralApp.js:407 | the concatenation of lists is empty iff every list is |
| Seqs.InConcat | frontend/src/GeneralApp.js:407 | a value is in the concatenation iff it is in one of the lists |
| Seqs.FoldConcat | frontend/src/GeneralApp.js:407 | folding `(arr1, arr2) => [...arr1, ...arr2]` from an accumulator appends the concatenation to it |
| Seqs.ReduceConcat | frontend/src/GeneralApp.js:407 | `reduce` without an initial value throws iff the array is empty; otherwise it returns the concatenation |
| Seqs.ConcatOfNonEmpty | frontend/src/GeneralApp.js:406 | dropping the empty lists changes neither the concatenation nor whether it is empty |
| Seqs.FlattenAsWritten | frontend/src/GeneralApp.js:405-407 | the flattening as written throws iff every list is empty; otherwise it returns the concatenation |
| Seqs.Flatten | frontend/src/GeneralApp.js:405-407 | the flattening with the initial value `[]`: the fold from `[]`, empty iff every list is |
| Seqs.FirstIndex | frontend/src/GeneralApp.js:412 | the first position holding the value |
| Seqs.FirstIndexOfPrefix | frontend/src/GeneralApp.js:409 | the first position of a value in a prefix is its first position in the whole |
| Seqs.SetSpread | frontend/src/GeneralApp.js:409 | `[...new Set(s)]` has no duplicates and holds exactly the values of `s` |
| Seqs.SetSpreadOrder | frontend/src/GeneralApp.js:409 | the values of `[...new Set(s)]` are listed in first-occurrence order |
| StableSort.Insert | frontend/src/GeneralApp.js:414-416 | one insertion step lengthens the list by one |
| StableSort.Sort | frontend/src/GeneralApp.js:423-425 | the sort keeps the length; see the lemmas below for order, permutation and stability |
| StableSort.InsertPermutes | frontend/src/GeneralApp.js:414-416 | one insertion step adds exactly the inserted element |
| StableSort.SortPermutes | frontend/src/GeneralApp.js:414-416 | the sort returns a permutation of its input |
| StableSort.InsertKeepsSorted | frontend/src/GeneralApp.js:414-416 | inserting into a newest-first list keeps it newest first |
| StableSort.SortIsSorted | frontend/src/GeneralApp.js:414-416 | the sort's result is in non-increasing key order |
| StableSort.WithKeyAppend | frontend/src/GeneralApp.js:414-416 | the elements with a given key of `s + [x]` |
| StableSort.InsertWithKey | frontend/src/GeneralApp.js:414-416 | insertion adds the new element after the existing elements with its key |
| StableSort.SortIsStable | frontend/src/GeneralApp.js:414-416 | elements with equal keys keep their relative order |
| StableSort.InsertAt | frontend/src/GeneralApp.js:414-416 | the insertion lands after the last element, scanning from the back, whose key is at least the new key |
| StableSort.InsertInPlace | frontend/src/GeneralApp.js:414-416 | the in-place insertion step leaves the specification's insertion in the prefix and the rest of the array unchanged |
| StableSort.SortInPlace | frontend/src/GeneralApp.js:414-416 | the in-place sort leaves the array holding the specification's sort of its old contents |
| StableSort.SortedCopy | frontend/src/GeneralApp.js:414-416 | sorting a fresh array built from a list yields the sorted list |
| Normalize.FindById | frontend/src/GeneralApp.js:412 | `find` by id: found iff the id occurs, and then it is the first project with that id |
| Normalize.FindAll | frontend/src/GeneralApp.js:411-412 | the found projects carry the given ids in order, each being the first project with its id |
| Normalize.DedupById | frontend/src/GeneralApp.js:409-412 | distinct ids; the same set of ids as the input; each entry is the first project with its id; entries in first-occurrence order |
| Normalize.StripUser | frontend/src/GeneralApp.js:398-402 | deleting the two lists keeps every other field |
| Normalize.StripAll | frontend/src/GeneralApp.js:397-402 | the stripping loop over the copy computes the stripped users |
| Normalize.Normalize | frontend/src/GeneralApp.js:397-425 | the stored users have the input's length and order, each stripped of its lists; the stored todos are exactly as many as all users' todos together; see the lemmas below for the projects and the order |
| Normalize.ProjectsAsWritten | frontend/src/GeneralApp.js:405-416 | the projects step throws iff no user has a project |
| Normalize.TodosAsWritten | frontend/src/GeneralApp.js:419-425 | the todos step throws iff no user has a todo |
| Normalize.NormalizeAsWritten | frontend/src/GeneralApp.js:394-432 | `setAllData` as written stores nothing iff no user has a project or no user has a todo |
| Normalize.ProjectsAgree | frontend/src/GeneralApp.js:405-416 | where the projects step succeeds it computes the corrected projects |
| Normalize.TodosAgree | frontend/src/GeneralApp.js:419-425 | where the todos step succeeds it computes the corrected todos |
| Normalize.AsWrittenAgrees | frontend/src/GeneralApp.js:394-432 | where the as-written computation stores anything, it stores the corrected snapshot |
| Normalize.CollectProjects | frontend/src/GeneralApp.js:405-416 | the projects step with its in-place sort computes the as-written projects |
| Normalize.CollectTodos | frontend/src/GeneralApp.js:419-425 | the todos step with its in-place sort computes the as-written todos |
| Normalize.Collect | frontend/src/GeneralApp.js:397-425 | the computation before `setState` is the as-written normalisation |
| Normalize.NoProjectsFails | frontend/src/GeneralApp.js:405-407 | one user with todos and no project: the as-written computation throws, while the corrected one yields no projects and the sorted todos |
| Normalize.PermutationKeepsIds | frontend/src/GeneralApp.js:414-416 | reordering keeps distinct ids distinct and keeps the set of ids |
| Normalize.FlattenedIds | frontend/src/GeneralApp.js:405-409 | an id is among the flattened projects iff some user lists a project with that id |
| Normalize.NormalizeProjectsUnique | frontend/src/GeneralApp.js:405-416 | one project per id found in any user's projects; each kept entry is the first project with that id across users in input order |
| Normalize.NormalizedConsistent | frontend/src/GeneralApp.js:405-425 | the snapshot has distinct project ids and newest-first projects and todos |
| Normalize.OneCopy | frontend/src/GeneralApp.js:409-412 | an entry of a list with distinct ids occurs once |
| Normalize.TwoCopies | frontend/src/GeneralApp.js:409-412 | a value at two positions occurs at least twice |
| Normalize.NormalizeSorted | frontend/src/GeneralApp.js:414-425 | projects and todos are newest first; projects permute the de-duplicated list; todos permute all users' todos with no de-duplication |
| Normalize.NormalizeStable | frontend/src/GeneralApp.js:414-425 | entries with equal `updated` keep their order from before the sort |
| Normalize.FlattenOfTwo | frontend/src/GeneralApp.js:405-421 | the flattening of two users is their lists concatenated |
| Normalize.DedupOfRepeat | frontend/src/GeneralApp.js:409-412 | `[p, q, p]` de-duplicates to `[p, q]` |
| Normalize.SortOfPair | frontend/src/GeneralApp.js:414-416 | two projects come out newest first |
| Normalize.TwoUsersNormalized | frontend/src/GeneralApp.js:394-432 | a worked example: a shared project is kept once and sorted after a newer one |
| Normalize.TwoUsersShareAProject | frontend/src/GeneralApp.js:394-432 | the same example through the as-written computation, which succeeds |
| Normalize.AsWrittenOfTwo | frontend/src/GeneralApp.js:405-421 | two users, the first with a project and the second with a todo: both reduces succeed, with the corrected result |
| GraphQL.FlatTodo | frontend/src/GeneralApp.js:360-366 | the todo id becomes a number; `user` and `project` become the numbers of the nested ids; every other field is kept |
| GraphQL.MemberIds | frontend/src/GeneralApp.js:371-376 | `usersArr`: the member ids as numbers, same length and order |
| GraphQL.FlatProject | frontend/src/GeneralApp.js:368-378 | the project id becomes a number; `users` becomes the member ids; every other field is kept |
| GraphQL.FlatTodos | frontend/src/GeneralApp.js:360-366 | each todo reshaped, same length and order |
| GraphQL.FlatProjects | frontend/src/GeneralApp.js:368-378 | each project reshaped, same length and order |
| GraphQL.FlatUser | frontend/src/GeneralApp.js:357-380 | the user id becomes a number; the lists are reshaped; every other field is kept |
| GraphQL.FlatUsers | frontend/src/GeneralApp.js:357-380 | each user reshaped, same length and order |
| GraphQL.FlatTodoOfRendered | frontend/src/GeneralApp.js:360-366 | reshaping a todo rendered with text ids gives back the REST todo |
| GraphQL.FlatProjectOfRendered | frontend/src/GeneralApp.js:368-378 | reshaping a rendered project gives back the REST project |
| GraphQL.FlatUserOfRendered | frontend/src/GeneralApp.js:357-380 | reshaping a rendered user gives back the REST user in every field but the roles, whose ids stay text |
| GraphQL.FlatUsersOfRendered | frontend/src/GeneralApp.js:354-380 | the reshaped GraphQL answer has one user per REST user, equal to it but for the role ids, which are text |
| GraphQL.FlatUsersOfRenderedWithoutRoles | frontend/src/GeneralApp.js:354-380 | for users without roles the two fetch paths give the same users |
| GraphQL.RolesStayText | frontend/src/GeneralApp.js:319-322 | a numeric role id comes back from the GraphQL path as its text, so that user differs from its REST form |
| GraphQL.ReshapeMembers | frontend/src/GeneralApp.js:371-376 | the `push` loop builds exactly the member ids |
| GraphQL.ReshapeTodos | frontend/src/GeneralApp.js:360-366 | the loop over a user's todos computes the reshaped todos |
| GraphQL.ReshapeProjects | frontend/src/GeneralApp.js:368-378 | the loop over a user's projects computes the reshaped projects |
| GraphQL.ReshapeUsers | frontend/src/GeneralApp.js:357-380 | the loop over `allUsers` computes the reshaped users |

Helpers without a row: `Normalize.Ids`, `Normalize.ProjectLists`,
`Normalize.TodoLists` and `Normalize.StripUsers` are the `map` calls of
`setAllData` (lines 405, 409, 419 and 397-402), and `GraphQL.RenderRoles` and the other rendering functions
stand in for the server's answer.

## Left out

- The network is not modelled: axios, promises and `async`/`await`. A
  request is returned as a value, a response or error is a parameter of
  the handler that receives it, and a refetch is the returned request.
- The cookie store is not modelled. `GetToken` takes the two cookie
  values as parameters, and the cookie writes of `setToken` are left out.
- App.GeneralApp.GetToken: a missing cookie, which reads as `undefined`,
  is modelled as the empty token or login; both are falsy, so
  `isAuthenticated` agrees.
- App.GeneralApp.AuthAnswered: an answer without `access` makes the
  source call `setToken(undefined, login)`; the model stores the empty
  token for `undefined`, which `isAuthenticated` treats alike. The token
  view of the backend answers `token` rather than `access`; the backend
  is not part of this model, so both answers are modelled.
- Ids are unbounded integers. JavaScript numbers are doubles: `+id`
  rounds ids above 2^53, and `${id}` writes exponent notation from 10^21
  on. Neither is modelled.
- GraphQL.FlatUserOfRendered: the reshaping leaves the role ids as the
  text the GraphQL `ID` field gives, where the REST answer carries
  numbers, so the two paths agree only up to the role ids
  (`GraphQL.RolesStayText`). The REST serializer is not part of this
  model; the model takes its role ids as numbers.
- `setState` is modelled as a plain assignment. Its asynchrony and
  callbacks are left out, and so is the racing of concurrent requests.
  In particular, the window after an optimistic delete is not modelled:
  the server may refuse the delete, and the state is never rolled back.
- `updated` is an integer key, so the sort comparators' `new Date(...)`
  parsing and subtraction are left out. `Array.prototype.sort` is taken
  to be stable, as ECMAScript 2019 requires.
- GraphQL ids are typed as decimal integer text (`IdText`). The `NaN`
  that unary plus gives for any other text is left out.
- The alert texts, `console.log` and the `text` argument of `handleErrors`
  are left out: alerts are the `Alert` kinds.
- `render`, the routing table and the child components are UI and are
  left out. `frontend/src/components/Projects/ProjectItem.js` is UI; it is
  not part of this model.
- The backend files are not part of this model: `backend/users/views.py`,
  `backend/todos/views.py` and `backend/config/urls.py`. The GraphQL
  rendering functions (`GraphQL.RenderUser` and the others) stand in for
  the server's answer only in the round-trip lemmas.
- `createUser`, `createProject` and `createTodo` only post their argument
  to an endpoint. Their payloads are not modelled; only the success
  handler (`CreateSucceeded`) and the error path are.
- `getTodosDataREST` and `getProjectsDataREST` are left out: nothing calls
  them. The default arguments of `getDataREST` are left out too: every
  call passes all four.
- `getNotification` is a plain read of the `notification` field.
- Normalize.CollectTodos: when exactly one user has todos, the
  `reduce` without an initial value returns that user's own
  `userTodos` array, so the source sorts that fetched list in place and
  stores it. The model sorts a copy (`StableSort.SortedCopy`). Nothing
  reads the fetched data afterwards, so the stored state is the same;
  the aliasing itself is not modelled. The projects are always a fresh
  array before their sort.
- The code appends a `/` after the offset of the list URL, and `ListUrl`
  follows it.
  `Requests.OffsetValueKeepsSlash` shows that the offset value does not
  read as an integer. Whether the server's paginator still accepts it is a
  property of the server, which is not part of this model.

## Findings

| source | as written | input that shows it | evidently intended | confidence | as-written member | corrected member |
|---|---|---|---|---|---|---|
| frontend/src/GeneralApp.js:405-421 | `reduce((arr1, arr2) => [...arr1, ...arr2], ...[])` spreads no argument, so the reduce has no initial value and throws a TypeError on an empty array | a single user with todos and no project (`Normalize.NoProjectsFails`); likewise no todos at all, or no users | the initial value `[]`: no projects or no todos give empty collections | medium, not executed | Normalize.NormalizeAsWritten (via Seqs.FlattenAsWritten), with Normalize.NoProjectsFails | Normalize.Normalize (via Seqs.Flatten), with Normalize.NormalizeProjectsUnique, Normalize.NormalizeSorted and Normalize.NormalizeStable |

The class keeps the behaviour as written:

- `App.GeneralApp.SetAllData` stores nothing when the reduce throws.
- `App.GeneralApp.ReceiveUsers` routes the TypeError to the error
  handler, as the `.catch` of the fetch does in the source.
- When the reduce succeeds, `Normalize.AsWrittenAgrees` shows that the
  stored state is the corrected normalisation. That is why every property
  proved about `Normalize.Normalize` holds of the stored collections.
