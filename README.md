# Project timeline: tenant-scoped task API and client sync controller

This project models the core of a small project-timeline application. Members
of a company (a *tenant*) log in and view and edit a shared list of scheduled
tasks. The model covers two parts:

- **The server** (`server.js`):
  - the login decision;
  - the `authenticateToken` middleware;
  - the `ProjectTask` table as a class holding a map from auto-increment id to
    record;
  - the four task routes: list, create, update and delete.

  Every query is scoped to the caller's company.
- **The client** (`src/ProjectTimeline.tsx`): the `ProjectTimeline` component
  as a class with its six state fields, and the handlers that change them. It
  keeps two id spaces apart:
  - server ids, shown as decimal strings;
  - client-only placeholder ids, which start with `default-`.

  It shows a placeholder task whenever the list would otherwise be empty.

The modules follow the program:

| file | module | what it holds |
|---|---|---|
| `json.dfy` | `JsValues` | JSON fields that may be `undefined`, `null` or a value, and JavaScript truthiness |
| `seqs.dfy` | `Seqs` | `filter` and `map` |
| `ids.dfy` | `Ids` | decimal ids, placeholder ids, and reading the `:id` path parameter back |
| `wire.dfy` | `Wire` | dates, styles, API tasks, token claims and responses |
| `guard.dfy` | `SessionGuard` | the middleware |
| `login.dfy` | `CredentialGate` | login |
| `store.dfy` | `TaskStore` | the table and its tenant-scoped queries |
| `api.dfy` | `TaskApi` | the route handlers |
| `timeline.dfy` | `Timeline` | the client component |
| `sync.dfy` | `Sync` | properties that span server and client, and the create/update/delete walk-through |

**Open-world inputs.** The following are parameters of the model:

- the secret-key operations: `jwt.verify`, `jwt.sign` and `bcrypt.compare`;
- the outcome of each client network call (ok with a body, not ok, or thrown);
- the user's answer to `confirm`.

**Dates.** A date is an integer number of milliseconds since the epoch. A date
arriving in a request body keeps its text, for the truthiness tests, next to
the instant that `new Date(text)` yields.

**Where the code departs from the intended behaviour, the model follows the code:**

- **The authentication scheme is not checked.** The intended header is
  `Authorization: Bearer <token>`. The code takes the second space-separated
  word of the header, whatever the first word is.
- **Update merges by two rules.** The intended merge keeps the stored value of
  every field that is absent or `null`. The code does this instead:
  - `name`, `type`, `styles`, `start` and `end` are replaced only by truthy
    values.
  - `progress` and `isDisabled` are replaced by anything that is not
    `undefined`, so a JSON `null` stores NULL. Stored `progress` and
    `isDisabled` are therefore optional in the model.
- **The modal flags are independent.** The intended client is a list ⇄
  add-modal ⇄ edit-modal state machine. In the code the add form and the edit
  form can both be open at once, and the model keeps both flags independent.
  What the code does keep is described by `Timeline.ProjectTimeline.Valid`: the
  edit form is open exactly when a task is selected.

## Model

| member | source | states |
|---|---|---|
| Seqs.Filter | src/ProjectTimeline.tsx:159-161 | the result keeps exactly the elements the predicate accepts, is no longer than the input, is the input when all are kept and empty when none is |
| Seqs.FilterConcat | src/ProjectTimeline.tsx:241-243 | filtering a concatenation is the concatenation of the filtered parts, so the filter keeps order |
| Seqs.MapSeq | src/ProjectTimeline.tsx:88-102 | the result has the input's length, and its element i is the function applied to input element i |
| Ids.NatToString | src/ProjectTimeline.tsx:89 | `id.toString()` is a non-empty string of decimal digits and is never a placeholder id |
| Ids.ParseId | server.js:277-279 | the `:id` text selects a record id exactly when it is a non-empty string of digits |
| Ids.ParseNatToString | server.js:277-279 | reading back a stringified id gives the id, so a client id in a URL selects the record it came from |
| SessionGuard.UpToSpace | server.js:104 | the word before the first space is a prefix without spaces, followed by a space or the end of the header |
| SessionGuard.AfterFirstSpace | server.js:104 | there is text after a first space exactly when the header has a space, and word + space + rest rebuilds the header |
| SessionGuard.HeaderToken | server.js:104 | `authHeader && authHeader.split(" ")[1]`: there is no token exactly when the header is absent or has no space; otherwise the token is the space-free text between the first space and the next space or the end |
| SessionGuard.Guard | server.js:102-123 | missing token ⇔ no truthy second word; invalid ⇔ a token `verify` rejects; proceed ⇔ a token `verify` accepts, carrying exactly the decoded claims |
| SessionGuard.Rejection | server.js:106-118 | a missing token is answered with 401 and an invalid one with 403 |
| SessionGuard.SchemeAndToken | server.js:104 | `scheme + " " + token` yields the token for any scheme word: the scheme is not checked |
| SessionGuard.NoSecondWordIsMissing | server.js:104-108 | a header without a space is answered as a missing token, whatever `verify` would say |
| CredentialGate.Login | server.js:158-198 | a missing username or password gives 400 "enter credentials"; a known user whose password matches gets 200 with a token signed over exactly id, username and company, plus the account summary; anything else gives 400 "wrong id or password"; no other status occurs |
| CredentialGate.UnknownUserLooksLikeWrongPassword | server.js:168-182 | an unknown username and a wrong password for an existing one get the same response |
| CredentialGate.LoginCarriesTenant | server.js:184-188 | a 200 login comes from an existing account, and its token is signed over that account's own id, username and company |
| TaskStore.StylesOf | server.js:87-90 | the `styles` getter: an empty raw value reads as `{}`, with no colour set; a stored value reads as itself |
| TaskStore.StylesRoundTrip | server.js:87-93 | what the setter stores, the getter reads back |
| TaskStore.ToApiTask | server.js:212-221 | the response carries the record's id, name, dates, progress, type, isDisabled and styles as stored, with the styles read through the getter |
| TaskStore.ApiTaskHidesTenant | server.js:254-263 | the response never shows the tenant or the owner: records that differ only there look the same |
| TaskStore.InsertByStart | server.js:209 | inserting adds exactly the record to the multiset and lengthens the sequence by one |
| TaskStore.InsertKeepsSorted | server.js:209 | insertion into a start-sorted sequence keeps it sorted |
| TaskStore.SortByStart | server.js:209 | `ORDER BY start ASC` returns a permutation of its input that is sorted by start |
| TaskStore.ListTasks | server.js:207-210 | the tenant's list holds exactly the visible records of that tenant, each once, sorted by start |
| TaskStore.FindTenantTask | server.js:277-279 | a record is found exactly when the id text parses to a stored id of the caller's tenant, and the result is that record |
| TaskStore.TenantIsolation | server.js:207-210 | two tables that agree on one tenant's records give that tenant the same list and the same lookups |
| TaskStore.FindIsolation | server.js:277-279 | lookups depend only on the caller's own tenant's records |
| TaskStore.ForeignWriteInvisible | server.js:277-279 | writing or removing a record of another tenant leaves this tenant's view as it was |
| TaskStore.ForeignIdLooksMissing | server.js:277-285 | another tenant's id and a missing id give the same lookup result, so both end in 404 |
| TaskStore.Store.constructor | server.js:51-56 | an empty table whose first auto-increment id is 1 |
| TaskStore.Store.Create | server.js:242-252 | the record is stored under the next id, which was unused, whatever id the values hold, and the counter advances |
| TaskStore.Store.Save | server.js:287-295 | the found record is overwritten and ids do not move |
| TaskStore.Store.Destroy | server.js:328 | exactly the record is removed |
| TaskApi.RequiredFieldsChecked | server.js:236 | `!name \|\| !start \|\| !end`: a body passes exactly when name, start and end are all non-empty strings, so an absent, null or empty one is refused |
| TaskApi.CreatedRecord | server.js:242-252 | per-field defaults of create: falsy progress, type and isDisabled become 0, "task" and false, absent styles `{}`; the tenant and owner come from the token, never from the body |
| TaskApi.Merge | server.js:287-295 | id, tenant and owner never change; truthy name, type, dates and given styles overwrite, and a field changes only if the body carried it; a given progress or isDisabled overwrites, and a JSON null one stores NULL |
| TaskApi.FalsyValuesInUpdate | server.js:288-293 | progress 0 and isDisabled false take effect, while an empty name or type is ignored |
| TaskApi.NullClearsProgress | server.js:291-293 | a JSON null progress or isDisabled stores NULL |
| TaskApi.EmptyUpdateKeepsTask | server.js:287-306 | an update that carries no fields leaves the task as the API shows it |
| TaskApi.ProgressOnlyUpdate | server.js:291 | a progress-only update changes only progress, even to 0 |
| TaskApi.MergeIdempotent | server.js:287-295 | sending the same update twice has the effect of sending it once |
| TaskApi.BodyCompanyIgnored | server.js:233-252 | a `company` key in the body affects neither create nor update |
| TaskApi.WritesInvisibleToOthers | server.js:277-295 | creating, updating or deleting one tenant's record leaves every other tenant's view as it was |
| TaskApi.HandleList | server.js:205-229 | a rejection from the guard, or 200 with the caller's tenant's tasks sorted by start, in API form; the table is not changed |
| TaskApi.HandleCreate | server.js:231-269 | 401/403 from the guard, then 400 for missing name, start or end, then 500 for a token without a company (each leaving the table as it was), otherwise the defaulted record stored under a fresh id and returned |
| TaskApi.HandleUpdate | server.js:271-312 | after the guard, 404 with no change unless the id names a record of the caller's tenant; otherwise that record is replaced by its merge with the body, which is returned |
| TaskApi.HandleDelete | server.js:314-335 | after the guard, 404 with no change unless the id names a record of the caller's tenant; otherwise exactly that record is removed |
| Timeline.DefaultTasksShape | src/ProjectTimeline.tsx:53-69 | the placeholder list is the single task `default-1`, 30% done, of type "task", enabled, with the default colours; it is a settled list of placeholders only |
| Timeline.FormatTask | src/ProjectTimeline.tsx:88-102 | the client id is the server id's decimal string, reads back as the server id, and is not a placeholder id; falsy progress, type and isDisabled become 0, "task" and false, and absent styles become the default colours |
| Timeline.LoadedTasks | src/ProjectTimeline.tsx:83-112 | after a fetch the list is settled; a non-empty ok body gives its tasks formatted in order, and anything else gives the placeholder list |
| Timeline.AddedTasks | src/ProjectTimeline.tsx:159-162 | the new task is appended after the old real tasks, every placeholder is dropped, and the list stays settled |
| Timeline.EditedTasks | src/ProjectTimeline.tsx:214-218 | exactly the entries with the selected id are replaced by the server's task; the others keep their value and place |
| Timeline.AfterDelete | src/ProjectTimeline.tsx:241-248 | the list is never empty; if tasks remain it is exactly the remaining tasks, which do not include the deleted id, and if none remain it is the placeholder list |
| Timeline.FirstTaskReplacesPlaceholder | src/ProjectTimeline.tsx:159-162 | adding to the placeholder list gives just the new task |
| Timeline.EditKeepsSettled | src/ProjectTimeline.tsx:214-218 | editing a real id keeps the list settled |
| Timeline.DeleteKeepsSettled | src/ProjectTimeline.tsx:241-248 | any delete keeps the list settled |
| Timeline.DeleteOfAbsentId | src/ProjectTimeline.tsx:241-248 | deleting an id the list does not hold changes nothing |
| Timeline.ProjectTimeline.constructor | src/ProjectTimeline.tsx:40-50 | no tasks, loading, both forms closed, nothing selected, an empty add form |
| Timeline.ProjectTimeline.FetchTasks | src/ProjectTimeline.tsx:75-116 | whatever the outcome, the list becomes the loaded list and loading ends; nothing else changes |
| Timeline.ProjectTimeline.HandleAddTask | src/ProjectTimeline.tsx:118-169 | posts the form with fixed type, flag and colours; on success the list is the added list and the form is reset and closed; otherwise nothing changes |
| Timeline.ProjectTimeline.HandleEditTask | src/ProjectTimeline.tsx:171-225 | with no selection, nothing is sent or changed; otherwise the selected task is put; on success the edited list replaces the old one and the selection closes; a failure changes nothing |
| Timeline.ProjectTimeline.HandleDeleteTask | src/ProjectTimeline.tsx:227-253 | a placeholder id sends nothing and changes nothing; otherwise a delete is sent, and on success the list becomes the list after the delete |
| Timeline.ProjectTimeline.HandleTaskClick | src/ProjectTimeline.tsx:254-261 | a placeholder changes nothing; a real task is selected and the edit form opens |
| Timeline.ProjectTimeline.DeleteButton | src/ProjectTimeline.tsx:329-343 | a placeholder or a declined confirm sends nothing; otherwise this is the delete handler |
| Timeline.ProjectTimeline.ChartDoubleClick | src/ProjectTimeline.tsx:534-540 | a placeholder changes nothing; otherwise this is the task click |
| Timeline.ProjectTimeline.OpenAddForm | src/ProjectTimeline.tsx:284 | opens the add form and nothing else |
| Timeline.ProjectTimeline.CancelAddForm | src/ProjectTimeline.tsx:426 | closes the add form and keeps its contents |
| Timeline.ProjectTimeline.CancelEditForm | src/ProjectTimeline.tsx:517-520 | clears the selection and closes the edit form |
| Timeline.ProjectTimeline.ChangeNewTask | src/ProjectTimeline.tsx:365-416 | an add-form input changes the one field it is bound to; progress is `parseInt(value) \|\| 0` |
| Timeline.ProjectTimeline.ChangeSelectedTask | src/ProjectTimeline.tsx:448-507 | an edit-form input changes the one field of the selected task it is bound to, and the id stays, so the edit's target stays |
| Sync.EmptyTenantShowsPlaceholder | src/ProjectTimeline.tsx:87-106 | a tenant without tasks sees exactly the placeholder list |
| Sync.LoadedIdsSelectTheirRecords | src/ProjectTimeline.tsx:88-89 | a tenant with tasks sees one real task per record, and each task's id, sent back, selects for that tenant the record it was made from |
| Sync.CreateKickoff | server.js:231-263 | creating "Kickoff" with only a name and dates stores task 1 with progress 0, type "task" and isDisabled false |
| Sync.UpdateKickoff | server.js:271-306 | setting progress to 75 changes only progress |
| Sync.DeleteKickoff | server.js:314-329 | after the delete the tenant's list is empty |
| Sync.KickoffScenario | server.js:231-335 | create, a progress update, and a delete; the empty list then shows on the client as the placeholder list |

## Left out

- `jwt.verify`, `jwt.sign` and `bcrypt.compare` are function parameters. The model does not capture signatures, expiry, the `24h` lifetime or the secret.
- Sequelize and SQLite infrastructure is not part of this model: connection, `sync`, the `User` schema, the `User.hasMany` association, and the two startup `findOrCreate` accounts. The account table is a map from username to account.
- Express setup, CORS, JSON body parsing and `listen` are not part of this model. Requests and responses are values.
- Date parsing and formatting are not modelled. `new Date(text)`, `toISOString` and JSON date serialisation appear as given instants (`DateText`), and the RangeError that `toISOString` throws on an Invalid Date in the edit handler is not modelled.
- Styles are stored through `JSON.stringify` and read back through `JSON.parse`; the model takes this round trip as the identity.
- `ParseId`: reads only non-empty decimal digit strings as ids. Other texts that SQLite could still match numerically, such as `" 5"` or `"5.0"`, read as no id.
- HandleList, HandleUpdate, HandleDelete: the 500 answers that come from storage failures are not modelled. The one 500 modelled is create with a token whose company is null, which the not-null column rejects.
- CredentialGate.Login: does not model the 500 answer that comes from a storage failure.
- Fields of the wrong JSON type are not modelled: a number as `name`, a string as `progress`, and so on. A fetch body that is `null`, or not an array, is not modelled either.
- Asynchrony is not modelled: each client handler runs as one atomic step on the state it starts from. Interleaved responses and stale closures over `tasks` are not modelled.
- Rendering is not modelled: JSX, the Gantt chart, CSS, `alert`, the loading screen and the logout button.
- `src/Login.tsx` and `src/App.tsx` are not part of this model, so the token and `user` props are not modelled.
- The wire encoding of client requests is not modelled. The edit request carries the selected task's fields, not their JSON text.
- Records that start at the same instant are listed in id order. SQL leaves their order unspecified.
