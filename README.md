# Entity-sync core of the academic administration screens

The front end manages roles, teachers, students, topics, activities, tasks
and grades. Each manager screen holds copies of rows from a hosted table
client (supabase-js) in React state, along with a form and an edit session.
After a gateway call it patches its local list instead of fetching again.
This project models those screens as Dafny classes, one per screen, and
proves what each handler does to that state.

- **`Js`** (`js.dfy`): the JavaScript semantics the screens rely on.
  - `Option` stands for a value that may be `null`/`undefined`.
  - `Truthy` is the truthiness test of an id held in state; `null` and `0` are falsy.
  - `Trim` models `String.prototype.trim` over the ECMAScript white-space and line-terminator code points.
  - `Blank` is the guard `!s.trim()`.
- **`Gateway`** (`gateway.dfy`): the gateway's replies, which the handlers receive as parameters.
  - A `select`/`insert` answers `Err` or `Ok(data)`.
  - An `update`/`delete` answers `Failed` or `Succeeded`.
  - `RowsOrEmpty` is `response.data || []`.
  - `AllOrNothing` is a `Promise.all` over one query per row, where any failure aborts the batch.
- **`Resolver`** (`resolver.dfy`): `Find`, the `Array.prototype.find` that the activity and grade joins, the drop-downs and `handleEdit` use. It returns the first element whose key is `===` the wanted id.
- **`Mirror`** (`mirror.dfy`): the list reconciliations.
  - `Remove` is `filter(x => x.id !== k)`.
  - `Replace` is `map(x => x.id === k ? patch(x) : x)`.
  - Appending is written `list + [x]` where it happens.
  - The lemmas cover order, idempotence, absent ids and unique ids.
- **`Schema`** (`schema.dfy`): the row types of the tables: `roles`, `docentes`, `estudiantes`, `temas`, `actividades`, `calificaciones`, `tareas`, plus the column subsets the drop-downs select.
- **One module per screen:**

  | module | class | file |
  |---|---|---|
  | `Roles` | `RolManager` | `roles.dfy` |
  | `TaskList` | `TaskListScreen` | `tasklist.dfy` |
  | `Temas` | `TemaManager` | `temas.dfy` |
  | `Tareas` | `TareaManager` | `tareas.dfy` |
  | `Actividades` | `ActividadManager` | `actividades.dfy` |
  | `Docentes` | `DocentesManager` | `docentes.dfy` |
  | `Estudiantes` | `EstudiantesManager` | `estudiantes.dfy` |
  | `Calificaciones` | `CalificacionesManager` | `calificaciones.dfy` |

  Each class has the screen's state variables as fields. Each handler is a method that takes the gateway's reply as a parameter. Each handler that writes (an insert, update or delete) returns the request it sends: `None` when a guard stops it before any call. The fetches receive their replies and return nothing. The handlers of the forms state their new state exactly, per outcome, through a `...Done` two-state predicate. Fields that are not mentioned are stated unchanged.

In the activity, task, teacher, student and grade screens, a record shown in a list keeps the fetched row as its `row` field. The
display fields the screen spreads into it (`{...row, nombrerol}`) sit beside
it, so "the record keeps all of its original fields" is a statement about
`row`.

The model follows the code's behaviour, including where it differs from the
idealised design:
- The update reply is never read in the activity, teacher, student and grade screens.
- The delete reply is never read in the activity, teacher, student, grade and topic-list screens.
- The teacher and student screens never patch their list after an edit.
- The `tareas` edit adds camelCase keys. The table renders the lowercase ones.
- The topic edit keeps the stale embedded `docente`.
- `handleEdit` on a topic without `docente` throws once the teacher list is not empty.
- An insert answered without data throws outside the `try` in the teacher and student screens.

The first-rendered state, the fetches, the drop-downs, the two task check
boxes and every handler named below are methods. The joins and
reconciliations are functions with lemmas relating them to `Find`,
`Remove` and `Replace`.

## Model

| member | source | states |
|---|---|---|
| Js.TrimStart | src/components/RolManager.jsx:29 | the result is a suffix of the input, the dropped prefix is all white space, and the result does not start with white space |
| Js.TrimEnd | src/components/RolManager.jsx:29 | the result is a prefix of the input, the dropped suffix is all white space, and the result does not end with white space |
| Js.Trim | src/components/RolManager.jsx:29 | `trim()` as the trailing-space cut of the leading-space cut; what that leaves is stated by `TrimIsInnerSlice` and `TrimEmptyIffBlank` |
| Js.TrimIsInnerSlice | src/components/RolManager.jsx:29 | `s.trim()` is a contiguous slice of `s` with only white space before and after it, and it neither starts nor ends with white space |
| Js.TrimEmptyIffBlank | src/components/RolManager.jsx:29 | `s.trim()` is the empty (falsy) string exactly when every character of `s` is white space, which justifies the `Blank` guard |
| Js.Blank | src/components/TemaManager.jsx:49 | the guard `!s.trim()`: every character is white space, which `TrimEmptyIffBlank` shows is exactly "trim leaves the empty, falsy string" |
| Js.Truthy | src/components/CalificacionesManager.jsx:62 | the truthiness of an id held in state (`editMode && editCalificacionId`): `null`/`undefined` and the number 0 are falsy, every other id truthy |
| Gateway.AllOrNothing | src/components/DocentesManager.jsx:38-57 | the batch succeeds exactly when every per-row query succeeds, and then holds one answer per row, in row order |
| Gateway.RowsOrEmpty | src/components/ActividadManager.jsx:22-23 | the rows of a successful reply, and the empty list for an error reply, whose `data` is null |
| Resolver.Find | src/components/ActividadManager.jsx:29 | `find` gives nothing exactly when no element has the key, and otherwise the element at the first index with the key |
| Resolver.FindIsFirstMatch | src/components/CalificacionesManager.jsx:36-37 | whatever index holds the first match, `find` returns that element |
| Resolver.FindUniqueKey | src/components/TareaManager.jsx:160 | in a list without duplicate ids, `find` returns the one element with the id |
| Mirror.Remove | src/components/TaskList.jsx:33 | the filtered list has no element with the id, keeps every element without it, and adds nothing |
| Mirror.RemoveConcat | src/components/ActividadManager.jsx:103 | filtering a concatenation filters each part: kept elements keep their relative order |
| Mirror.RemoveAbsent | src/components/DocentesManager.jsx:106 | removing an id no element carries leaves the list unchanged |
| Mirror.RemoveIdempotent | src/components/EstudiantesManager.jsx:104 | removing twice is removing once |
| Mirror.RemoveUniqueKey | src/components/RolManager.jsx:82 | in a list without duplicate ids, removing the id at `i` removes exactly the element at `i` |
| Mirror.RemoveKeepsUnique | src/components/TemaManager.jsx:96 | removing keeps the ids unique |
| Mirror.Replace | src/components/RolManager.jsx:67-69 | same length; elements with the id are patched, all others are unchanged, position by position |
| Mirror.ReplaceKeepsUnique | src/components/TemaManager.jsx:78-82 | a patch that keeps the id keeps the ids unique |
| Mirror.AppendKeepsUnique | src/components/RolManager.jsx:40 | appending a record with a fresh id keeps the ids unique |
| Roles.Renamed | src/components/RolManager.jsx:67-69 | same length; the roles with the edited id take the new name and keep their id; every other role is unchanged |
| Roles.RenamedKeepsUniqueIds | src/components/RolManager.jsx:67-69 | a rename keeps the role ids unique |
| Roles.RenamedToSameName | src/components/RolManager.jsx:54-71 | renaming the roles to the name they already have leaves the list unchanged |
| Roles.RolManager.constructor | src/components/RolManager.jsx:6-9 | empty list, empty field, no edit session |
| Roles.RolManager.FetchRoles | src/components/RolManager.jsx:12-22 | the rows replace the list; an error leaves it; the form is untouched |
| Roles.RolManager.AddRol | src/components/RolManager.jsx:27-52 | a blank name sends nothing and changes nothing; an error or an answer without data changes nothing; otherwise the returned row is appended and the field cleared; the edit session is untouched |
| Roles.RolManager.UpdateRol | src/components/RolManager.jsx:54-75 | a blank name or falsy id sends nothing; a failed update changes nothing; success renames the matching roles, ends the session and clears the field |
| Roles.RolManager.DeleteRol | src/components/RolManager.jsx:77-86 | sends the delete; the role is filtered out only on success; the form is untouched |
| Roles.RolManager.HandleEdit | src/components/RolManager.jsx:88-92 | enters the edit session on the role's id with its name in the field, overwriting any earlier target; the list is untouched |
| Roles.RolManager.Submit | src/components/RolManager.jsx:97 | runs the update exactly when in edit mode, the add otherwise |
| TaskList.WithoutTema | src/components/TaskList.jsx:33 | no record with the id is left; every other record is kept; nothing is added |
| TaskList.WithoutTemaKeepsOrder | src/components/TaskList.jsx:33 | the kept records keep their relative order |
| TaskList.WithoutTemaAbsentAndTwice | src/components/TaskList.jsx:33 | deleting an absent id changes nothing; deleting twice equals deleting once |
| TaskList.TaskListScreen.constructor | src/components/TaskList.jsx:7 | empty list |
| TaskList.TaskListScreen.FetchTemas | src/components/TaskList.jsx:10-25 | the rows replace the list; an error leaves it |
| TaskList.TaskListScreen.DeleteTema | src/components/TaskList.jsx:30-37 | sends the delete of the id, and the record is filtered out whatever the gateway answered |
| Temas.FromFetched | src/components/TemaManager.jsx:17-26 | a fetched topic keeps its id, title and the embedded `docente` of the join, and has no `docenteid` key |
| Temas.FromInserted | src/components/TemaManager.jsx:57 | an inserted row keeps its id, title and `docenteid`, and has no embedded `docente` |
| Temas.DocenteLabel | src/components/TemaManager.jsx:165 | the teacher column, `tema.docente ? tema.docente.nombre : 'N/A'`; `DocenteLabelBySource` states it per origin of the record |
| Temas.Retitled | src/components/TemaManager.jsx:78-82 | same length; the edited topic takes the new title and `docenteid` and keeps its embedded `docente`; every other topic is unchanged |
| Temas.RetitledKeepsDocenteLabels | src/components/TemaManager.jsx:165 | after an update every topic shows the same teacher as before, including the one whose teacher was changed |
| Temas.DocenteLabelBySource | src/components/TemaManager.jsx:165 | an appended topic shows "N/A"; a fetched one shows its joined teacher's name, or "N/A" when the join found none |
| Temas.TemaManager.constructor | src/components/TemaManager.jsx:7-12 | empty lists, empty field, no selection, no edit session |
| Temas.TemaManager.FetchTemas | src/components/TemaManager.jsx:15-30 | the fetched topics with their embedded teachers replace the list; an error leaves it |
| Temas.TemaManager.FetchDocentes | src/components/TemaManager.jsx:33-41 | the teachers replace the drop-down list; an error leaves it |
| Temas.TemaManager.SelectDocente | src/components/TemaManager.jsx:129-133 | the selection is the first teacher with the chosen id, or nothing |
| Temas.TemaManager.AddTema | src/components/TemaManager.jsx:47-63 | a blank title or no teacher sends nothing; an error or an answer without data changes nothing; otherwise the bare row is appended with no `docente`, and title and selection are reset |
| Temas.TemaManager.UpdateTema | src/components/TemaManager.jsx:65-89 | a blank title, no teacher or a falsy id sends nothing; failure changes nothing; success retitles the topic, ends the session and resets the form |
| Temas.TemaManager.DeleteTema | src/components/TemaManager.jsx:91-100 | the topic is filtered out only on success |
| Temas.TemaManager.HandleEdit | src/components/TemaManager.jsx:102-110 | enters the session with the title; selects the first teacher with the embedded teacher's id; a topic without `docente` throws, after the session was entered, when the teacher list is not empty, and keeps the old selection; with no teachers loaded nothing throws and the selection is cleared |
| Temas.TemaManager.Submit | src/components/TemaManager.jsx:115 | runs the update exactly when in edit mode, the add otherwise |
| Tareas.JoinTitulo | src/components/TareaManager.jsx:28-41 | one task joined with its per-row `.single()` title query: an error fails the row, an answer gives the row plus `temaTitulo`; `WithTemaTitulos` states the batch |
| Tareas.WithTemaTitulos | src/components/TareaManager.jsx:27-42 | the join succeeds exactly when every per-row topic query does, and then holds one record per task, in order, keeping the row, with the title the gateway gave |
| Tareas.Edited | src/components/TareaManager.jsx:118-124 | same length; the edited task takes the new notes and topic title and gains the camelCase flags; its row keeps id, `temaid` and lowercase flags; every other task is unchanged |
| Tareas.EditedKeepsRenderedFlags | src/components/TareaManager.jsx:232-235 | after an edit the table still shows every task's check boxes, and `temaid`, as they were |
| Tareas.TareaManager.constructor | src/components/TareaManager.jsx:8-15 | empty lists, empty form, no edit session |
| Tareas.TareaManager.FetchTareas | src/components/TareaManager.jsx:18-48 | the joined tasks replace the list; an error of the `tareas` query or of any topic query leaves it |
| Tareas.TareaManager.FetchTemas | src/components/TareaManager.jsx:50-58 | the topics replace the drop-down list; an error leaves it |
| Tareas.TareaManager.SelectTema | src/components/TareaManager.jsx:180-184 | the selection is the first topic with the chosen id, or nothing |
| Tareas.TareaManager.ToggleClaseImpartida | src/components/TareaManager.jsx:201 | the flag is negated; nothing else changes |
| Tareas.TareaManager.ToggleActividadPendiente | src/components/TareaManager.jsx:210 | the flag is negated; nothing else changes |
| Tareas.TareaManager.AddTarea | src/components/TareaManager.jsx:64-96 | blank notes or no topic sends nothing; an error or no data changes nothing; otherwise the row is appended with the selected topic's title and the form reset to empty/false/false/none |
| Tareas.TareaManager.UpdateTarea | src/components/TareaManager.jsx:99-140 | blank notes, no topic or a falsy id sends nothing; failure changes nothing, session included; success applies `Edited`, ends the session and resets the form |
| Tareas.TareaManager.DeleteTarea | src/components/TareaManager.jsx:143-152 | the record is filtered out only on success |
| Tareas.TareaManager.HandleEdit | src/components/TareaManager.jsx:154-161 | enters the session, loads notes and flags from the lowercase fields and selects the first topic with the row's `temaid`, which may be none |
| Tareas.TareaManager.Submit | src/components/TareaManager.jsx:166 | runs the update exactly when in edit mode, the add otherwise |
| Actividades.WithTemas | src/components/ActividadManager.jsx:27-35 | one record per activity, in order, keeping the row; its `tema` is absent exactly when no topic has the row's `temaid`, and otherwise is the first topic that has it |
| Actividades.TemaLabel | src/components/ActividadManager.jsx:197 | the topic column, `actividad.tema ? actividad.tema.titulo : 'N/A'`; `WithTemasAgree` states its value after the fetch |
| Actividades.WithTemasAgree | src/components/ActividadManager.jsx:197 | every joined record's topic matches its own `temaid`, and the table shows the first matching topic's title, or "N/A" |
| Actividades.Revised | src/components/ActividadManager.jsx:67-76 | same length; the edited activity takes the new description, status and topic object and keeps its id and `temaid`; every other activity is unchanged |
| Actividades.RevisedTemaAgreement | src/components/ActividadManager.jsx:67-76 | an edited activity's topic agrees with its `temaid` exactly when the chosen topic has that same id |
| Actividades.ActividadManager.constructor | src/components/ActividadManager.jsx:6-12 | empty lists and description, status "Pendiente", no selection, no edit session |
| Actividades.ActividadManager.FetchData | src/components/ActividadManager.jsx:15-41 | both lists are replaced, a failed query counting as empty; the activities are joined with the topics |
| Actividades.ActividadManager.SelectTema | src/components/ActividadManager.jsx:143-147 | the selection is the first topic with the chosen id, or nothing |
| Actividades.ActividadManager.SelectEstado | src/components/ActividadManager.jsx:163-170 | the status becomes the chosen option, one of "Pendiente"/"Realizada" |
| Actividades.ActividadManager.Submit | src/components/ActividadManager.jsx:46-98 | guard means no call and no change; the edit path sends the update, ignores its reply, ends the session, applies `Revised` and resets the form; the add path changes nothing on an error or missing data and otherwise appends the row with the selected topic and resets the form; the status stays within its options |
| Actividades.ActividadManager.DeleteActividad | src/components/ActividadManager.jsx:100-107 | the activity is filtered out whatever the gateway answered |
| Actividades.ActividadManager.HandleEdit | src/components/ActividadManager.jsx:109-115 | enters the session, copies description and status, and selects the first topic with the row's `temaid` |
| Docentes.JoinRol | src/components/DocentesManager.jsx:39-56 | one teacher joined with its per-row `.single()` role query: an error fails the row, no data gives "Rol no definido", a row gives its `nombrerol`; `WithRoles` states the batch |
| Docentes.WithRoles | src/components/DocentesManager.jsx:38-57 | the join succeeds exactly when every role query does, and then holds one record per teacher, in order, keeping the row, named by the returned role or "Rol no definido" when no row came back |
| Docentes.WithRolesKeepsUniqueIds | src/components/DocentesManager.jsx:38-57 | the joined list has unique teacher ids when the fetch had |
| Docentes.DocentesManager.constructor | src/components/DocentesManager.jsx:7-12 | empty lists and field, no role selected (the role list is empty at first render), no edit session |
| Docentes.DocentesManager.FetchRoles | src/components/DocentesManager.jsx:15-25 | the roles replace the drop-down list; an error leaves it |
| Docentes.DocentesManager.FetchDocentes | src/components/DocentesManager.jsx:27-63 | the joined teachers replace the list; an error of the teacher query or of any role query leaves it |
| Docentes.DocentesManager.SelectRol | src/components/DocentesManager.jsx:149-153 | the selection is the first role with the chosen id, or nothing |
| Docentes.DocentesManager.Submit | src/components/DocentesManager.jsx:69-101 | guard means no call and no change; the edit path sends the update, ends the session and resets the form, leaving the list as it was; the add path changes nothing on an error, appends the row with the selected role's name on success, and on a missing row resets the form, keeps the list and reports an uncaught error |
| Docentes.DocentesManager.DeleteDocente | src/components/DocentesManager.jsx:103-110 | the teacher is filtered out whatever the gateway answered |
| Docentes.DocentesManager.HandleEdit | src/components/DocentesManager.jsx:112-120 | enters the session, copies the name, and selects the first role with the row's `rolid`, or nothing |
| Estudiantes.JoinRol | src/components/EstudiantesManager.jsx:38-55 | one student joined with its per-row `.single()` role query: an error, or no data (`rolData.nombrerol` throws), fails the row; a row gives its `nombrerol`; `WithRoles` states the batch |
| Estudiantes.WithRoles | src/components/EstudiantesManager.jsx:38-55 | the join succeeds exactly when every role query comes back with a row, and then holds one record per student, in order, keeping the row, with the returned role name |
| Estudiantes.EstudiantesManager.constructor | src/components/EstudiantesManager.jsx:7-12 | empty lists and field, no selection, no edit session |
| Estudiantes.EstudiantesManager.FetchRoles | src/components/EstudiantesManager.jsx:15-25 | the roles replace the drop-down list; an error leaves it |
| Estudiantes.EstudiantesManager.FetchEstudiantes | src/components/EstudiantesManager.jsx:27-61 | the joined students replace the list; an error, or a role query without a row, leaves it |
| Estudiantes.EstudiantesManager.SelectRol | src/components/EstudiantesManager.jsx:143-147 | the selection is the first role with the chosen id, or nothing |
| Estudiantes.EstudiantesManager.Submit | src/components/EstudiantesManager.jsx:67-99 | as for teachers: guard means no call; the edit path leaves the list as it was; the add path appends on success, changes nothing on an error, and throws outside the `try` on a missing row |
| Estudiantes.EstudiantesManager.DeleteEstudiante | src/components/EstudiantesManager.jsx:101-108 | the student is filtered out whatever the gateway answered |
| Estudiantes.EstudiantesManager.HandleEdit | src/components/EstudiantesManager.jsx:110-115 | enters the session, copies the name, and builds the selected role from the record's own `rolid` and role name, without a lookup |
| Calificaciones.NombreDe | src/components/CalificacionesManager.jsx:41 | the student name shown for an id, `estudiante ? estudiante.nombre : 'N/A'`; `NamesAreFirstMatches` states which student that is |
| Calificaciones.DescripcionDe | src/components/CalificacionesManager.jsx:42 | the activity description shown for an id, `actividad ? actividad.descripcion : 'N/A'`; `NamesAreFirstMatches` states which activity that is |
| Calificaciones.NamesAreFirstMatches | src/components/CalificacionesManager.jsx:36-42 | the student name shown for an id is that of the first student with it, or "N/A"; likewise the activity description |
| Calificaciones.WithNames | src/components/CalificacionesManager.jsx:32-44 | one record per grade, in order, keeping the row and showing the names its own ids refer to |
| Calificaciones.Regraded | src/components/CalificacionesManager.jsx:81-90 | same length; the edited grade takes the two names and the new score and keeps its id, `estudianteid` and `actividadid`; every other grade is unchanged |
| Calificaciones.RegradedNamesAgree | src/components/CalificacionesManager.jsx:77-90 | an edited grade whose selections name its own ids still shows the names those ids refer to |
| Calificaciones.UnchangedEditKeepsRecord | src/components/CalificacionesManager.jsx:81-90 | in a list without duplicate ids, regrading record `i` with the names its own ids resolve to and its own score leaves the list unchanged |
| Calificaciones.CalificacionesManager.constructor | src/components/CalificacionesManager.jsx:7-14 | empty lists and score, no selections, no edit session |
| Calificaciones.CalificacionesManager.FetchData | src/components/CalificacionesManager.jsx:17-50 | the three lists are replaced, a failed query counting as empty; the grades are joined with the names |
| Calificaciones.CalificacionesManager.SelectEstudiante | src/components/CalificacionesManager.jsx:160-164 | the selection is the first student with the chosen id, or nothing |
| Calificaciones.CalificacionesManager.SelectActividad | src/components/CalificacionesManager.jsx:184-188 | the selection is the first activity with the chosen id, or nothing |
| Calificaciones.CalificacionesManager.Submit | src/components/CalificacionesManager.jsx:55-126 | guard means no call and no change; the edit path sends the update, ignores its reply, ends the session, applies `Regraded` and resets the form; the add path changes nothing on an error or no data and otherwise appends the row with the selected names and resets the form, leaving the session untouched |
| Calificaciones.CalificacionesManager.DeleteCalificacion | src/components/CalificacionesManager.jsx:129-136 | the grade is filtered out whatever the gateway answered |
| Calificaciones.CalificacionesManager.HandleEdit | src/components/CalificacionesManager.jsx:138-144 | enters the session, builds both selections from the record's ids and display names, and loads the score's string form |
| Calificaciones.CalificacionesManager.EditAndResubmit | src/components/CalificacionesManager.jsx:55-144 | `handleEdit` on a grade whose names agree with the lists, then `handleSubmit` on the untouched form, when `parseFloat` recovers the score from its string: a non-zero id resends the record's own values and leaves the list unchanged; id 0 is falsy, so an insert is sent and its returned row appended; a blank string form stops at the guard |

## Left out

- The hosted table client is not modelled: `select`, `insert`, `update`, `delete`, `eq`, `order`, `single` and the embedded join. Each handler receives the client's reply as a parameter. The server-side ordering is assumed in the reply.
- An insert's reply is `Ok(None)` when `data` is null, or `Ok(Some(row))` when it holds the inserted row. A one-row insert never answers an empty array, so these two cover every reply. Were `[]` possible, it would differ from `null` in four screens: the topic screen would append `undefined` and reset the form (`TemaManager.jsx:57`), the activity screen would append `{ tema }` and reset the form (`ActividadManager.jsx:88`), and the teacher and student screens would append `{ nombrerol }` with no error (`DocentesManager.jsx:93`, `EstudiantesManager.jsx:91`). The role, task and grade screens test `data && data.length > 0` and treat the two alike.
- Roles.RolManager.AddRol: the branch for a falsy first element of `data` is folded into the no-data case, because a returned row object is never falsy.
- `parseFloat` and `Number.prototype.toString` are given to the grade screen's constructor as functions. The score is a `real`, and `NaN` is not modelled.
- The `parseInt(e.target.value, 10)` of the drop-downs is not modelled: the drop-down methods take the parsed id.
- The text inputs' `onChange` handlers are not modelled. They only copy the typed text into a field.
- Docentes.DocentesManager.Submit: after the uncaught error of an insert without data, React's unmounting of the tree is not modelled. Only the error and the state already set are.
- Estudiantes.EstudiantesManager.Submit: the same as for the teacher screen.
- Temas.TemaManager.HandleEdit: the TypeError thrown in the event handler is reported as `uncaught`. React's reporting of it to the console is not modelled; the tree stays mounted and the state already set stays.
- Where a fetch reply carries `data: null` with no error, the teacher, student and task screens would throw on `null.map` inside their `try` (`DocentesManager.jsx:39`, `EstudiantesManager.jsx:39`, `TareaManager.jsx:28`). This is not modelled separately from an error reply: the outcome, an untouched list, is the same.
- Concurrency is not modelled: the `Promise.all` interleaving, overlapping submissions, stale closures over the list (`setX(list...)` versus `setX(prev => ...)`) and unmounting during a fetch. Each handler is one atomic step.
- JSX rendering, Bootstrap and FontAwesome markup, and `console.log`/`console.error` output are not modelled. The exceptions are the display fallbacks stated as functions and lemmas: the topic's teacher, the activity's topic and the check boxes of a `tareas` record.
- Authentication, routing, the report page, the navigation bar, home page, footer and the standalone task form are not part of this model. They are foreign calls, PDF layout or presentation. The form's one `trim()` guard is the same as the managers' guards.
- Object identity is not modelled: records are values. The model cannot tell a spread copy from the original object.
