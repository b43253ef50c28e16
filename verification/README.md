# Request gate and teacher handlers of a Go REST API, in Dafny

This project models two pieces of request-decision logic of a Go REST API
server that serves teachers, students and executives:

- the **CORS middleware** (`internal/api/middlewares/cors.go`): an exact,
  case-sensitive test of the request's `Origin` header against a fixed
  two-entry allow-list, followed by one of three outcomes — a 403 "Not Allowed
  by CORS" without running the next stage, the CORS headers followed by an
  immediate return for a preflight `OPTIONS` request, or the CORS headers
  followed by exactly one call of the next stage;
- the **teacher handlers** (`internal/api/handlers/teachers.go`): the ordered
  validation pipeline of `AddTeacherHandler` (body read, decode as an array of
  objects, field whitelist, decode into teachers, blank-field check, and only
  then the database insert), the id-parse guards of the Get/Update/Patch/Delete
  handlers, the authorization guard of `GetStudentCountByTeacherId`, and the
  shape of every success response.

## How the model is built

`http.dfy` (module `Http`) models the part of Go's `net/http` the handlers use.
A `ResponseWriter` is a class with one field, `trace`: the ordered list of
everything done to it — header set or deleted, `WriteHeader`, a body write, a
call of the next stage, a call to a collaborator (the database), a panic. What
a client observes is `Run` of that trace: the header map, the status (0 while
none is written; a second `WriteHeader` is ignored and a body write before any
`WriteHeader` fixes 200, as in `net/http`), the body chunks, how often the
next stage ran and which database calls were made. `http.Error` is modelled as
Go's standard library writes it: delete `Content-Length`, set a plain-text
`Content-Type` and `X-Content-Type-Options: nosniff`, write the status, write
the message followed by a newline.

`cors.dfy` (module `Cors`) has `IsOriginAllowed` as the source's search loop,
`CorsEffects` as the specification of what the middleware does for an origin
and a method, and the method `Cors` proved to do exactly that to its writer.
The header names are the code's own: `Access-Control-Allow-Origin` and five
`Allow-Control-*` keys.

`teachers.dfy` (module `Teachers`) has `AddTeacherHandler` as an imperative
method over the writer, whose loops (building the allowed-field set, checking
every key of every object, running the blank check on each teacher) are
read-only methods proved against their specifications, and whose whole effect
is `AddTeacherEffects`. The other handlers are straight-line code and are
functions from their abstract inputs to their trace (`GetTeachersHandler`,
`GetTeacherHandler`, `UpdateTeacherHandler`, `PatchTeacherHandler`,
`PatchTeachersHandler`, `DeleteTeacherHandler`, `DeleteTeachersHandler`,
`GetStudentsByTeacherId`, `GetStudentCountByTeacherId`). For each of them a
`…CallFirst` lemma proves that the database is consulted at most once and
before anything is written. The lemmas in the table below state, path by path, what a client and
the database see: every invalid-id and invalid-payload answer, every
database-error answer, and every success answer.

Code outside the two files is an input: the body as read (`None` when
`io.ReadAll` fails), the two JSON decoders (total functions of the body bytes),
the result of `GetFieldNames(models.Teacher{})`, `CheckBlankFields` (a function
giving the error of a teacher, if any), `strconv.Atoi` (a function from the path
value to an optional int), `utils.AuthorizeUser` (a function from a role and
the permitted roles to an optional error), and the answer of every `sqlconnect`
call (an `Option`/`Result` argument; whether the call was made is recorded in
the trace). `models.Teacher` and `models.Student` are type parameters.

The model follows the code where it departs from common convention: five of the six CORS headers are named `Allow-Control-*`
rather than `Access-Control-*`; an authorization failure in
`GetStudentCountByTeacherId` is answered 400, not 403; `GetTeacherHandler`
answers an unparsable id or a database error with nothing at all (the client
receives an empty 200), not with a 400.

## Model

| member | source | states |
|---|---|---|
| `Cors.IsOriginAllowed` | internal/api/middlewares/cors.go:44-51 | the result is true iff the origin equals one of the two listed strings exactly: `https://my-origin-url.com` or `https://localhost:8000` |
| `Cors.ExactMatchOnly` | internal/api/middlewares/cors.go:9-12 | both listed origins pass; the empty origin, a case variant, a trailing slash, a longer host, another scheme and a missing port do not |
| `Cors.Cors` | internal/api/middlewares/cors.go:14-42 | the handler's effect on the writer is exactly `CorsEffects` of the request's origin and method, appended to what was there |
| `Cors.Rejected` | internal/api/middlewares/cors.go:22-27 | an origin not in the list is answered 403 with body "Not Allowed by CORS\n", the next stage does not run, no database call, and none of the six CORS header keys changes |
| `Cors.AbsentOriginRejected` | internal/api/middlewares/cors.go:18-27 | a request with no `Origin` header is answered 403 and the next stage does not run |
| `Cors.AcceptedHeadersObserved` | internal/api/middlewares/cors.go:23-33 | the six header writes of an accepted request leave the header map with the origin and the five fixed values and change nothing else |
| `Cors.Accepted` | internal/api/middlewares/cors.go:22-33 | for an allowed origin and any method, `Access-Control-Allow-Origin` equals the request's origin verbatim, the five `Allow-Control-*` keys hold their fixed values, and no status or body is written |
| `Cors.PreflightStops` | internal/api/middlewares/cors.go:35-37 | an allowed `OPTIONS` request returns after the headers without running the next stage |
| `Cors.ForwardsOnce` | internal/api/middlewares/cors.go:29-39 | an allowed request with another method runs the next stage exactly once, as the last effect, after every header write |
| `Http.ErrorObserved` | internal/api/middlewares/cors.go:25 | `http.Error` sets the status to its code unless one was written, appends the message and a newline as the one body chunk, marks the body plain text, calls nothing and does not run the next stage |
| `Http.ResponseWriter.Error` | internal/api/handlers/teachers.go:63 | calling `http.Error` appends exactly its five effects to the writer's record |
| `Http.ResponseWriter.Set` | internal/api/middlewares/cors.go:23 | a header set records one effect and maps the key to the value, nothing else changing |
| `Http.ResponseWriter.WriteHeader` | internal/api/handlers/teachers.go:112 | the status becomes the code unless one was already written |
| `Http.ResponseWriter.Write` | internal/api/handlers/teachers.go:123 | a body write appends the chunk and fixes status 200 when none was written |
| `Http.ResponseWriter.Next` | internal/api/middlewares/cors.go:39 | calling the next stage records it and raises the count of next-stage runs by one |
| `Http.ResponseWriter.Invoke` | internal/api/handlers/teachers.go:105 | a database call records the call and its arguments, nothing else changing |
| `Teachers.AllowedFieldSet` | internal/api/handlers/teachers.go:74-79 | the allowed set holds exactly the Teacher field names |
| `Teachers.AllKeysAllowed` | internal/api/handlers/teachers.go:81-89 | the loop reports success iff every key of every submitted object is in the allowed set |
| `Teachers.FirstBlankErrorIsFirst` | internal/api/handlers/teachers.go:97-103 | the blank check reports no error iff every teacher passes, and otherwise the error of a teacher all of whose predecessors pass |
| `Teachers.FirstBlankIsAt` | internal/api/handlers/teachers.go:97-103 | when teacher i fails and all before it pass, the reported error is teacher i's |
| `Teachers.CheckAllBlankFields` | internal/api/handlers/teachers.go:97-103 | the loop returns the first teacher's error, and none iff every teacher passes |
| `Teachers.AddTeacherHandler` | internal/api/handlers/teachers.go:57-124 | the handler's effect on the writer is exactly `AddTeacherEffects` of its inputs, appended to what was there |
| `Teachers.AddReadFailure` | internal/api/handlers/teachers.go:61-65 | a body that cannot be read is answered 500 "Error reading request body" with no database call |
| `Teachers.AddMalformedBody` | internal/api/handlers/teachers.go:68-95 | a body that is not an array of objects, or that passes the whitelist but does not decode into teachers, is answered 400 "Invalid request body" with no database call |
| `Teachers.AddUnknownField` | internal/api/handlers/teachers.go:74-89 | a key that is not a Teacher field name, in any object, is answered 400 "Unacceptable field found in request, Only use allowed fields." and the insert is never called |
| `Teachers.AddBlankField` | internal/api/handlers/teachers.go:97-103 | after the whitelist passes, the first teacher failing the blank check decides the answer: 400 with its error, no insert |
| `Teachers.AddInsertOnlyWhenValid` | internal/api/handlers/teachers.go:61-109 | the insert is called, once and with the decoded teachers, iff every stage passes in order (read, decode, whitelist, decode, blank check); on every path exactly one body chunk is written |
| `Teachers.CreatedObserved` | internal/api/handlers/teachers.go:111-123 | the success writes give `Content-Type: application/json`, status 201 and the list as the one new body chunk |
| `Teachers.AddCreated` | internal/api/handlers/teachers.go:105-123 | valid input whose insert succeeds is answered 201 with status "success", Data the teachers the database returned and Count equal to the length of Data |
| `Teachers.AddInsertFailed` | internal/api/handlers/teachers.go:105-109 | valid input whose insert fails is answered 400 with the database's error, after the one insert call |
| `Teachers.JsonObserved` | internal/api/handlers/teachers.go:32-33 | a JSON reply sets `Content-Type: application/json`, leaves the status 200 unless written, and adds the payload as the one body chunk |
| `Teachers.GetTeachersCallFirst` | internal/api/handlers/teachers.go:15-35 | the database is consulted at most once, and only as the first effect, before anything is written |
| `Teachers.GetTeachersSilent` | internal/api/handlers/teachers.go:15-20 | on a database error `GetTeachersHandler` writes nothing: only the lookup is recorded |
| `Teachers.GetTeachersCount` | internal/api/handlers/teachers.go:15-34 | a successful list has status "success", Data the database's teachers and Count equal to the length of Data |
| `Teachers.GetTeacherCallFirst` | internal/api/handlers/teachers.go:37-55 | the database is consulted at most once, and only as the first effect, before anything is written |
| `Teachers.GetTeacherReturnsStored` | internal/api/handlers/teachers.go:47-54 | a parsed id is looked up once, and the teacher the database returned is the one body chunk, under `Content-Type: application/json`, with status 200 unless one was written before |
| `Teachers.GetTeacherSilent` | internal/api/handlers/teachers.go:37-51 | an unparsable id leaves the writer and the database untouched; a lookup error leaves the writer untouched after the one lookup of the parsed id |
| `Teachers.UpdateCallFirst` | internal/api/handlers/teachers.go:126-153 | the database is consulted at most once, and only as the first effect, before anything is written |
| `Teachers.UpdateInvalidId` | internal/api/handlers/teachers.go:126-134 | an unparsable id is answered 400 "Invalid Teacher Id" with no database call |
| `Teachers.UpdateInvalidPayload` | internal/api/handlers/teachers.go:136-142 | a body that does not decode is answered 400 "Invalid Request Payload" with no database call |
| `Teachers.UpdateReturnsStored` | internal/api/handlers/teachers.go:144-151 | a valid update sends the parsed id and decoded teacher to the database once and answers with the teacher it returned |
| `Teachers.UpdateDbError` | internal/api/handlers/teachers.go:144-148 | a failed update is answered 400 with the database's error, after the one `UpdateTeacher` call with the parsed id and the decoded teacher |
| `Teachers.PatchCallFirst` | internal/api/handlers/teachers.go:155-181 | the database is consulted at most once, and only as the first effect, before anything is written |
| `Teachers.PatchInvalidId` | internal/api/handlers/teachers.go:155-163 | an unparsable id is answered 400 "Invalid Teacher Id" with no database call |
| `Teachers.PatchInvalidPayload` | internal/api/handlers/teachers.go:165-171 | a body that does not decode is answered 400 "Invalid Request Payload" with no database call |
| `Teachers.PatchReturnsStored` | internal/api/handlers/teachers.go:173-180 | a valid patch sends the parsed id and decoded updates to the database once and answers with the teacher it returned |
| `Teachers.PatchDbError` | internal/api/handlers/teachers.go:173-177 | a failed patch is answered 400 with the database's error, after the one `PatchTeacher` call with the parsed id and the decoded updates |
| `Teachers.PatchTeachersCallFirst` | internal/api/handlers/teachers.go:183-197 | the database is consulted at most once, and only as the first effect, before anything is written |
| `Teachers.PatchTeachersNoContent` | internal/api/handlers/teachers.go:183-197 | a successful batch patch calls the database once with the updates and answers 204 with no body |
| `Teachers.PatchTeachersRejected` | internal/api/handlers/teachers.go:183-195 | an undecodable body is answered 400 "Invalid request payload" with no call; a failed `PatchTeachers` is answered 400 with its error after the one call |
| `Teachers.DeleteCallFirst` | internal/api/handlers/teachers.go:199-225 | the database is consulted at most once, and only as the first effect, before anything is written |
| `Teachers.DeleteInvalidId` | internal/api/handlers/teachers.go:199-207 | an unparsable id is answered 400 "Invalid Teacher Id" with no database call |
| `Teachers.DeleteEchoesId` | internal/api/handlers/teachers.go:209-224 | a successful delete removes the parsed id and answers with that id and status "Teacher Successfully deleted" as JSON |
| `Teachers.DeleteDbError` | internal/api/handlers/teachers.go:209-213 | a failed delete is answered 400 with the database's error, after the one `DeleteOneTeacher` call with the parsed id |
| `Teachers.DeleteTeachersCallFirst` | internal/api/handlers/teachers.go:227-251 | the database is consulted at most once, and only as the first effect, before anything is written |
| `Teachers.DeleteTeachersEchoesIds` | internal/api/handlers/teachers.go:227-251 | a batch delete sends the decoded ids and answers with the ids the database reports deleted; an undecodable body is answered 400 "Invalid request payload" with no database call |
| `Teachers.DeleteTeachersDbError` | internal/api/handlers/teachers.go:236-240 | a failed batch delete is answered 400 with the database's error, after the one `DeleteTeachers` call with the decoded ids |
| `Teachers.StudentsCallFirst` | internal/api/handlers/teachers.go:253-275 | the database is consulted at most once, and only as the first effect, before anything is written |
| `Teachers.StudentsByTeacherCount` | internal/api/handlers/teachers.go:253-275 | the students list has Count equal to the length of Data; a lookup error is answered 400 "Invalid request payload" |
| `Teachers.StudentCountCallFirst` | internal/api/handlers/teachers.go:277-303 | the database is consulted at most once, and only as the first effect, before anything is written; a missing role panics before any call |
| `Teachers.StudentCountAuthGuard` | internal/api/handlers/teachers.go:277-283 | an authorization failure for the roles admin, manager and exec is answered 400 with its error before any database lookup |
| `Teachers.StudentCountMissingRole` | internal/api/handlers/teachers.go:279 | without a string role in the request context the handler panics, writing nothing and looking nothing up |
| `Teachers.StudentCountAnswered` | internal/api/handlers/teachers.go:284-302 | once authorized, the count is looked up for the path value and answered as the database returned it |
| `Teachers.CountDbError` | internal/api/handlers/teachers.go:284-292 | once authorized, a failed count lookup is answered 400 "Invalid request payload" (not the database's error), after the one lookup of the path value |

## Left out

- The Teacher and Student structs (`internal/models/teacher.go`, `student.go`) are not part of this model: the handlers never look inside a teacher, so both are type parameters, and the field names come in as the result of `GetFieldNames`.
- JSON encoding is assumed to succeed: each `Encode` is one body write of the response value, not its bytes (the JSON text and its trailing newline are not modelled, nor the case where marshalling fails and nothing is written, an error every handler ignores).
- JSON decoding, `strconv.Atoi`, `GetFieldNames`, `CheckBlankFields` and `utils.AuthorizeUser` are not part of this model; each is an input (see above). JSON numbers are `real` values, never inspected.
- Every `sqlconnect` call is an input answer plus a recorded call; the queries, the connection (`internal/repository/sqlconnect/sqlConfig.go`) and the request-dependent filtering of `GetTeachersDBHandler` are not modelled.
- Logging (`fmt.Println`, `log.Println`) has no effect on the response and is left out.
- `http.Header` holds several values per canonicalised key; the model keeps one value per key as `Set` leaves it, and every key the code uses is already in canonical form.
- Which snapshot of the header map reaches the wire (changes after `WriteHeader` are not sent) and the `Content-Type` sniffing `net/http` performs on the first write are not modelled; the model tracks the map the handler holds.
- What the next stage does after `Cors` calls it is not modelled; the call is recorded.
- A panic is recorded as an effect; the recovery `net/http` performs afterwards is not modelled.
- In `AddTeacherHandler` the loops sit in read-only helper methods that return their verdict; the handler writes the error after the loop stops instead of inside it, which gives the same effects. The key loop takes the keys of each object in an arbitrary order, as Go's map iteration does; its verdict does not depend on the order.
- The request pipeline of `cmd/api/server.go` (`ApplyMiddlewares`, the rate limiter, HPP, JWT and path-exclusion middlewares) is not modelled; only `cors.go` and `teachers.go` are. Process bootstrap, TLS and `ListenAndServeTLS` are I/O.
- `internal/api/middlewares/response_time.go` (wall-clock timing), `internal/api/router/router.go` (mux composition), `internal/api/handlers/students.go` and `execs.go` (constant responses per method) and `internal/models/exec.go` (a plain record) are not part of this model.
