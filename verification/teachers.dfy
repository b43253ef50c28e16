/** The teacher handlers of internal/api/handlers/teachers.go. Everything the
    handlers hand to code outside this file is an input here: the request body
    as read, the JSON decoders, strconv.Atoi, GetFieldNames, CheckBlankFields,
    utils.AuthorizeUser and the answer of every sqlconnect call. What remains
    is the order of the checks, which failure answers with what, whether the
    database is called, and the shape of each success response. */
module Teachers {
  import opened Http

  type Bytes = seq<bv8>

  /** A decoded JSON value; the handlers look only at object keys. */
  datatype JsonValue =
    | Null
    | Bool(b: bool)
    | Number(n: real)
    | Str(s: string)
    | Arr(items: seq<JsonValue>)
    | Obj(members: map<string, JsonValue>)

  /** One element of a []map[string]interface{}. */
  type RawObject = map<string, JsonValue>

  /** The response structs the handlers encode; T is models.Teacher and S is
      models.Student. */
  datatype Payload<T, S> =
    | TeacherList(status: string, count: int, data: seq<T>)
    | TeacherRecord(teacher: T)
    | TeacherDeleted(status: string, id: int)
    | TeachersDeleted(status: string, deletedIds: seq<int>)
    | StudentList(status: string, count: int, students: seq<S>)
    | StudentCount(status: string, count: int)

  /** The sqlconnect calls, with the arguments the handlers pass. */
  datatype DbCall<T> =
    | GetTeachers
    | GetTeacherByID(id: int)
    | AddTeachers(teachers: seq<T>)
    | UpdateTeacher(id: int, teacher: T)
    | PatchTeacher(id: int, updates: RawObject)
    | PatchTeachers(batch: seq<RawObject>)
    | DeleteOneTeacher(id: int)
    | DeleteTeachers(ids: seq<int>)
    | GetStudentsByTeacherIdFomDB(teacherId: string)  // the repository's own spelling
    | GetStudentCountByTeacherIdFromDB(teacherId: string)

  type Trace<T, S> = seq<Event<Payload<T, S>, DbCall<T>>>
  type Writer<T, S> = ResponseWriter<Payload<T, S>, DbCall<T>>
  type Observed<T, S> = Exchange<Payload<T, S>, DbCall<T>>

  const InvalidTeacherId := "Invalid Teacher Id"
  const InvalidRequestBody := "Invalid request body"
  const UnacceptableField := "Unacceptable field found in request, Only use allowed fields."

  /** Content-Type: application/json, then the encoded payload (status 200
      unless one was written before). */
  function JsonReply<T, S>(payload: Payload<T, S>): Trace<T, S> {
    [HeaderSet(ContentType, JsonContentType), BodyWritten(Json(payload))]
  }

  lemma JsonObserved<T, S>(x: Observed<T, S>, payload: Payload<T, S>)
    ensures Run(x, JsonReply(payload))
         == x.(header := x.header[ContentType := JsonContentType],
               status := FinalStatus(x),
               body := x.body + [Json(payload)])
  {
    var t := JsonReply(payload);
    assert t == [t[0]] + [t[1]];
    RunAppend(x, [t[0]], [t[1]]);
  }

  // ---------------------------------------------------------------------
  // AddTeacherHandler

  /** The keys allowed in a submitted teacher: the Teacher field names. */
  function FieldSet(fields: seq<string>): set<string> {
    set f | f in fields
  }

  /** Every key of every submitted object is an allowed field. */
  predicate OnlyAllowedKeys(raw: seq<RawObject>, allowed: set<string>) {
    forall i, k :: 0 <= i < |raw| && k in raw[i] ==> k in allowed
  }

  /** The error CheckBlankFields reports for the first teacher that fails it. */
  function FirstBlankError<T>(teachers: seq<T>, checkBlank: T -> Option<string>): Option<string>
    decreases |teachers|
  {
    if teachers == [] then None
    else if checkBlank(teachers[0]).Some? then checkBlank(teachers[0])
    else FirstBlankError(teachers[1..], checkBlank)
  }

  /** FirstBlankError is None exactly when every teacher passes, and otherwise
      the error of a teacher all of whose predecessors pass. */
  lemma {:induction false} FirstBlankErrorIsFirst<T>(teachers: seq<T>, checkBlank: T -> Option<string>)
    ensures FirstBlankError(teachers, checkBlank).None?
        <==> forall i :: 0 <= i < |teachers| ==> checkBlank(teachers[i]).None?
    ensures FirstBlankError(teachers, checkBlank).Some? ==>
      exists i :: 0 <= i < |teachers| && checkBlank(teachers[i]) == FirstBlankError(teachers, checkBlank)
        && forall j :: 0 <= j < i ==> checkBlank(teachers[j]).None?
    decreases |teachers|
  {
    if teachers != [] && checkBlank(teachers[0]).None? {
      var rest := teachers[1..];
      FirstBlankErrorIsFirst(rest, checkBlank);
      assert forall i :: 1 <= i < |teachers| ==> teachers[i] == rest[i - 1];
      if FirstBlankError(rest, checkBlank).Some? {
        var i :| 0 <= i < |rest| && checkBlank(rest[i]) == FirstBlankError(rest, checkBlank)
                 && forall j :: 0 <= j < i ==> checkBlank(rest[j]).None?;
        assert checkBlank(teachers[i + 1]) == FirstBlankError(teachers, checkBlank);
      }
    } else if teachers != [] {
      assert checkBlank(teachers[0]) == FirstBlankError(teachers, checkBlank);
    }
  }

  /** The validation stages of AddTeacherHandler all pass, in their order:
      body read, array-of-objects decode, field whitelist, decode into
      teachers, blank-field check. */
  predicate AddInputValid<T>(
    body: Option<Bytes>,
    decodeRaw: Bytes -> Option<seq<RawObject>>,
    fieldNames: seq<string>,
    decodeTeachers: Bytes -> Option<seq<T>>,
    checkBlank: T -> Option<string>)
  {
    && body.Some?
    && decodeRaw(body.value).Some?
    && OnlyAllowedKeys(decodeRaw(body.value).value, FieldSet(fieldNames))
    && decodeTeachers(body.value).Some?
    && FirstBlankError(decodeTeachers(body.value).value, checkBlank).None?
  }

  /** Everything AddTeacherHandler does, given the body as read (None when
      reading fails), the two decoders, the Teacher field names, the blank
      check and the answer of AddTeachersDBHandler. */
  function AddTeacherEffects<T, S>(
    body: Option<Bytes>,
    decodeRaw: Bytes -> Option<seq<RawObject>>,
    fieldNames: seq<string>,
    decodeTeachers: Bytes -> Option<seq<T>>,
    checkBlank: T -> Option<string>,
    insert: seq<T> -> Result<seq<T>>): Trace<T, S>
  {
    match body
    case None => ErrorEffects("Error reading request body", StatusInternalServerError)
    case Some(bytes) =>
      match decodeRaw(bytes)
      case None => ErrorEffects(InvalidRequestBody, StatusBadRequest)
      case Some(raw) =>
        if !OnlyAllowedKeys(raw, FieldSet(fieldNames)) then
          ErrorEffects(UnacceptableField, StatusBadRequest)
        else
          match decodeTeachers(bytes)
          case None => ErrorEffects(InvalidRequestBody, StatusBadRequest)
          case Some(teachers) =>
            match FirstBlankError(teachers, checkBlank)
            case Some(e) => ErrorEffects(e, StatusBadRequest)
            case None =>
              [Called(AddTeachers(teachers))] +
              match insert(teachers)
              case Err(e) => ErrorEffects(e, StatusBadRequest)
              case Ok(added) =>
                [ HeaderSet(ContentType, JsonContentType),
                  StatusWritten(StatusCreated),
                  BodyWritten(Json(TeacherList("success", |added|, added))) ]
  }

  /** The allowedFields set built from the field names, one name at a time. */
  method AllowedFieldSet(fields: seq<string>) returns (allowed: set<string>)
    ensures forall f :: f in allowed <==> f in fields
  {
    allowed := {};
    for i := 0 to |fields|
      invariant forall f :: f in allowed <==> f in fields[..i]
    {
      allowed := allowed + {fields[i]};
    }
  }

  /** The nested loop over the submitted objects and their keys; it stops at
      the first key that is not allowed. */
  method AllKeysAllowed(raw: seq<RawObject>, allowed: set<string>) returns (ok: bool)
    ensures ok <==> OnlyAllowedKeys(raw, allowed)
  {
    for i := 0 to |raw|
      invariant OnlyAllowedKeys(raw[..i], allowed)
    {
      var keys := raw[i].Keys;
      while keys != {}
        invariant keys <= raw[i].Keys
        invariant forall k :: k in raw[i] && k !in keys ==> k in allowed
        decreases keys
      {
        var key :| key in keys;
        if key !in allowed {
          assert raw[i] == raw[..i + 1][i];
          return false;
        }
        keys := keys - {key};
      }
      assert forall j :: 0 <= j < i ==> raw[..i + 1][j] == raw[..i][j];
    }
    assert raw == raw[..|raw|];
    return true;
  }

  /** The loop that runs CheckBlankFields on each teacher in order and stops
      at the first error. */
  method CheckAllBlankFields<T>(teachers: seq<T>, checkBlank: T -> Option<string>) returns (err: Option<string>)
    ensures err == FirstBlankError(teachers, checkBlank)
    ensures err.None? <==> forall i :: 0 <= i < |teachers| ==> checkBlank(teachers[i]).None?
  {
    FirstBlankErrorIsFirst(teachers, checkBlank);
    for i := 0 to |teachers|
      invariant FirstBlankError(teachers[i..], checkBlank) == FirstBlankError(teachers, checkBlank)
    {
      var e := checkBlank(teachers[i]);
      if e.Some? {
        return e;
      }
      assert teachers[i..][1..] == teachers[i + 1..];
    }
    return None;
  }

  /** AddTeacherHandler: validate the whole submission, then insert it. */
  method AddTeacherHandler<T, S>(
    w: Writer<T, S>,
    body: Option<Bytes>,
    decodeRaw: Bytes -> Option<seq<RawObject>>,
    fieldNames: seq<string>,
    decodeTeachers: Bytes -> Option<seq<T>>,
    checkBlank: T -> Option<string>,
    insert: seq<T> -> Result<seq<T>>)
    modifies w
    ensures w.trace == old(w.trace) + AddTeacherEffects<T, S>(body, decodeRaw, fieldNames, decodeTeachers, checkBlank, insert)
  {
    if body.None? {
      w.Error("Error reading request body", StatusInternalServerError);
      return;
    }
    var bytes := body.value;

    var rawTeachers := decodeRaw(bytes);
    if rawTeachers.None? {
      w.Error(InvalidRequestBody, StatusBadRequest);
      return;
    }

    var allowedFields := AllowedFieldSet(fieldNames);
    assert allowedFields == FieldSet(fieldNames);
    var ok := AllKeysAllowed(rawTeachers.value, allowedFields);
    if !ok {
      w.Error(UnacceptableField, StatusBadRequest);
      return;
    }

    var newTeachers := decodeTeachers(bytes);
    if newTeachers.None? {
      w.Error(InvalidRequestBody, StatusBadRequest);
      return;
    }

    var blank := CheckAllBlankFields(newTeachers.value, checkBlank);
    if blank.Some? {
      w.Error(blank.value, StatusBadRequest);
      return;
    }

    w.Invoke(AddTeachers(newTeachers.value));
    var added := insert(newTeachers.value);
    if added.Err? {
      w.Error(added.message, StatusBadRequest);
      assert w.trace == old(w.trace) + ([Called(AddTeachers(newTeachers.value))] + ErrorEffects(added.message, StatusBadRequest));
      return;
    }

    w.Set(ContentType, JsonContentType);
    w.WriteHeader(StatusCreated);
    w.Write(Json(TeacherList("success", |added.value|, added.value)));
  }

  /** A body that cannot be read is answered 500 "Error reading request body"
      and nothing else runs. */
  lemma AddReadFailure<T, S>(
    x: Observed<T, S>, body: Option<Bytes>, decodeRaw: Bytes -> Option<seq<RawObject>>, fieldNames: seq<string>,
    decodeTeachers: Bytes -> Option<seq<T>>, checkBlank: T -> Option<string>, insert: seq<T> -> Result<seq<T>>)
    requires body.None?
    ensures var y := Run(x, AddTeacherEffects<T, S>(body, decodeRaw, fieldNames, decodeTeachers, checkBlank, insert));
      Answered(x, y, "Error reading request body", StatusInternalServerError) && y.calls == x.calls
  {
    ErrorObserved<Payload<T, S>, DbCall<T>>(x, "Error reading request body", StatusInternalServerError);
  }

  /** A body that is not an array of objects, or that then does not decode
      into teachers, is answered 400 "Invalid request body" and the insert is
      not called. */
  lemma AddMalformedBody<T, S>(
    x: Observed<T, S>, body: Option<Bytes>, decodeRaw: Bytes -> Option<seq<RawObject>>, fieldNames: seq<string>,
    decodeTeachers: Bytes -> Option<seq<T>>, checkBlank: T -> Option<string>, insert: seq<T> -> Result<seq<T>>)
    requires body.Some?
    requires || decodeRaw(body.value).None?
             || (&& decodeRaw(body.value).Some?
                 && OnlyAllowedKeys(decodeRaw(body.value).value, FieldSet(fieldNames))
                 && decodeTeachers(body.value).None?)
    ensures var y := Run(x, AddTeacherEffects<T, S>(body, decodeRaw, fieldNames, decodeTeachers, checkBlank, insert));
      Answered(x, y, InvalidRequestBody, StatusBadRequest) && y.calls == x.calls
  {
    ErrorObserved<Payload<T, S>, DbCall<T>>(x, InvalidRequestBody, StatusBadRequest);
  }

  /** A key that is not a Teacher field name, in any submitted object, is
      answered 400 "Unacceptable field found in request, ..." and
      AddTeachersDBHandler is not called. */
  lemma AddUnknownField<T, S>(
    x: Observed<T, S>, body: Option<Bytes>, decodeRaw: Bytes -> Option<seq<RawObject>>, fieldNames: seq<string>,
    decodeTeachers: Bytes -> Option<seq<T>>, checkBlank: T -> Option<string>, insert: seq<T> -> Result<seq<T>>,
    i: nat, key: string)
    requires body.Some? && decodeRaw(body.value).Some?
    requires i < |decodeRaw(body.value).value| && key in decodeRaw(body.value).value[i] && key !in fieldNames
    ensures var y := Run(x, AddTeacherEffects<T, S>(body, decodeRaw, fieldNames, decodeTeachers, checkBlank, insert));
      Answered(x, y, UnacceptableField, StatusBadRequest) && y.calls == x.calls
  {
    var raw := decodeRaw(body.value).value;
    assert key in raw[i] && key !in FieldSet(fieldNames);
    assert !OnlyAllowedKeys(raw, FieldSet(fieldNames));
    ErrorObserved<Payload<T, S>, DbCall<T>>(x, UnacceptableField, StatusBadRequest);
  }

  /** Once the whitelist passes, the first teacher that fails CheckBlankFields
      decides the answer: 400 with its error, and no insert. */
  lemma AddBlankField<T, S>(
    x: Observed<T, S>, body: Option<Bytes>, decodeRaw: Bytes -> Option<seq<RawObject>>, fieldNames: seq<string>,
    decodeTeachers: Bytes -> Option<seq<T>>, checkBlank: T -> Option<string>, insert: seq<T> -> Result<seq<T>>,
    i: nat, message: string)
    requires body.Some? && decodeRaw(body.value).Some?
    requires OnlyAllowedKeys(decodeRaw(body.value).value, FieldSet(fieldNames))
    requires decodeTeachers(body.value).Some?
    requires var teachers := decodeTeachers(body.value).value;
      && i < |teachers| && checkBlank(teachers[i]) == Some(message)
      && forall j :: 0 <= j < i ==> checkBlank(teachers[j]).None?
    ensures var y := Run(x, AddTeacherEffects<T, S>(body, decodeRaw, fieldNames, decodeTeachers, checkBlank, insert));
      Answered(x, y, message, StatusBadRequest) && y.calls == x.calls
  {
    var teachers := decodeTeachers(body.value).value;
    FirstBlankIsAt(teachers, checkBlank, i);
    ErrorObserved<Payload<T, S>, DbCall<T>>(x, message, StatusBadRequest);
  }

  /** The error at index i, when every teacher before it passes, is the one
      FirstBlankError reports. */
  lemma {:induction false} FirstBlankIsAt<T>(teachers: seq<T>, checkBlank: T -> Option<string>, i: nat)
    requires i < |teachers| && checkBlank(teachers[i]).Some?
    requires forall j :: 0 <= j < i ==> checkBlank(teachers[j]).None?
    ensures FirstBlankError(teachers, checkBlank) == checkBlank(teachers[i])
    decreases i
  {
    if i > 0 {
      FirstBlankIsAt(teachers[1..], checkBlank, i - 1);
    }
  }

  /** AddTeachersDBHandler is called exactly when every validation stage
      passes, once, with the decoded teachers; whatever happens, exactly one
      body chunk is written and the next stage is not involved. */
  lemma AddInsertOnlyWhenValid<T, S>(
    x: Observed<T, S>, body: Option<Bytes>, decodeRaw: Bytes -> Option<seq<RawObject>>, fieldNames: seq<string>,
    decodeTeachers: Bytes -> Option<seq<T>>, checkBlank: T -> Option<string>, insert: seq<T> -> Result<seq<T>>)
    ensures var y := Run(x, AddTeacherEffects<T, S>(body, decodeRaw, fieldNames, decodeTeachers, checkBlank, insert));
      && (AddInputValid(body, decodeRaw, fieldNames, decodeTeachers, checkBlank) ==>
            y.calls == x.calls + [AddTeachers(decodeTeachers(body.value).value)])
      && (!AddInputValid(body, decodeRaw, fieldNames, decodeTeachers, checkBlank) ==> y.calls == x.calls)
      && |y.body| == |x.body| + 1
      && y.nextCalls == x.nextCalls
  {
    var t := AddTeacherEffects<T, S>(body, decodeRaw, fieldNames, decodeTeachers, checkBlank, insert);
    if AddInputValid(body, decodeRaw, fieldNames, decodeTeachers, checkBlank) {
      var teachers := decodeTeachers(body.value).value;
      var x1 := Step(x, Called(AddTeachers(teachers)));
      RunFirst(x, Called(AddTeachers(teachers)), t[1..]);
      assert t == [Called(AddTeachers(teachers))] + t[1..];
      match insert(teachers)
      case Err(e) =>
        ErrorObserved<Payload<T, S>, DbCall<T>>(x1, e, StatusBadRequest);
      case Ok(added) =>
        CreatedObserved(x1, added);
    } else if body.None? {
      ErrorObserved<Payload<T, S>, DbCall<T>>(x, "Error reading request body", StatusInternalServerError);
    } else if decodeRaw(body.value).None? {
      ErrorObserved<Payload<T, S>, DbCall<T>>(x, InvalidRequestBody, StatusBadRequest);
    } else if !OnlyAllowedKeys(decodeRaw(body.value).value, FieldSet(fieldNames)) {
      ErrorObserved<Payload<T, S>, DbCall<T>>(x, UnacceptableField, StatusBadRequest);
    } else if decodeTeachers(body.value).None? {
      ErrorObserved<Payload<T, S>, DbCall<T>>(x, InvalidRequestBody, StatusBadRequest);
    } else {
      var message := FirstBlankError(decodeTeachers(body.value).value, checkBlank).value;
      ErrorObserved<Payload<T, S>, DbCall<T>>(x, message, StatusBadRequest);
    }
  }

  /** The success answer of AddTeacherHandler after the insert call. */
  lemma CreatedObserved<T, S>(x: Observed<T, S>, added: seq<T>)
    ensures var y := Run(x, [ HeaderSet(ContentType, JsonContentType),
                              StatusWritten(StatusCreated),
                              BodyWritten(Json(TeacherList("success", |added|, added))) ]);
      && y.header == x.header[ContentType := JsonContentType]
      && y.status == (if x.status == 0 then StatusCreated else x.status)
      && y.body == x.body + [Json(TeacherList("success", |added|, added))]
      && y.calls == x.calls && y.nextCalls == x.nextCalls
  {
    var t: Trace<T, S> := [ HeaderSet(ContentType, JsonContentType),
                            StatusWritten(StatusCreated),
                            BodyWritten(Json(TeacherList("success", |added|, added))) ];
    assert t == [t[0]] + [t[1]] + [t[2]];
    RunAppend(x, [t[0]] + [t[1]], [t[2]]);
    RunAppend(x, [t[0]], [t[1]]);
  }

  /** Valid input whose insert succeeds is answered 201 with a list whose
      Count is the number of teachers the database returned. */
  lemma AddCreated<T, S>(
    x: Observed<T, S>, body: Option<Bytes>, decodeRaw: Bytes -> Option<seq<RawObject>>, fieldNames: seq<string>,
    decodeTeachers: Bytes -> Option<seq<T>>, checkBlank: T -> Option<string>, insert: seq<T> -> Result<seq<T>>,
    added: seq<T>)
    requires AddInputValid(body, decodeRaw, fieldNames, decodeTeachers, checkBlank)
    requires insert(decodeTeachers(body.value).value) == Ok(added)
    ensures var y := Run(x, AddTeacherEffects<T, S>(body, decodeRaw, fieldNames, decodeTeachers, checkBlank, insert));
      && y.status == (if x.status == 0 then StatusCreated else x.status)
      && ContentType in y.header && y.header[ContentType] == JsonContentType
      && |y.body| == |x.body| + 1
      && var p := y.body[|y.body| - 1];
         p.Json? && p.value.TeacherList? && p.value.status == "success"
         && p.value.data == added && p.value.count == |p.value.data|
  {
    var t := AddTeacherEffects<T, S>(body, decodeRaw, fieldNames, decodeTeachers, checkBlank, insert);
    var c := Called(AddTeachers(decodeTeachers(body.value).value));
    assert t == [c] + t[1..];
    RunFirst(x, c, t[1..]);
    CreatedObserved(Step(x, c), added);
  }

  /** Valid input whose insert fails is answered 400 with the database's error,
      after the one insert call. */
  lemma AddInsertFailed<T, S>(
    x: Observed<T, S>, body: Option<Bytes>, decodeRaw: Bytes -> Option<seq<RawObject>>, fieldNames: seq<string>,
    decodeTeachers: Bytes -> Option<seq<T>>, checkBlank: T -> Option<string>, insert: seq<T> -> Result<seq<T>>,
    message: string)
    requires AddInputValid(body, decodeRaw, fieldNames, decodeTeachers, checkBlank)
    requires insert(decodeTeachers(body.value).value) == Err(message)
    ensures var y := Run(x, AddTeacherEffects<T, S>(body, decodeRaw, fieldNames, decodeTeachers, checkBlank, insert));
      && Answered(x, y, message, StatusBadRequest)
      && y.calls == x.calls + [AddTeachers(decodeTeachers(body.value).value)]
  {
    var t := AddTeacherEffects<T, S>(body, decodeRaw, fieldNames, decodeTeachers, checkBlank, insert);
    var c := Called(AddTeachers(decodeTeachers(body.value).value));
    assert t == [c] + t[1..];
    RunFirst(x, c, t[1..]);
    ErrorObserved<Payload<T, S>, DbCall<T>>(Step(x, c), message, StatusBadRequest);
  }

  /** The database is consulted at most once, and before anything is
      written: a call can only be the first effect. */
  predicate CallFirst<T, S>(t: Trace<T, S>) {
    forall i :: 0 < i < |t| ==> !t[i].Called?
  }

  // ---------------------------------------------------------------------
  // The other handlers: straight-line code over the answers of
  // strconv.Atoi (atoi), the JSON decoder (decoded) and sqlconnect (db).

  /** GetTeachersHandler: on a database error it returns without writing. */
  function GetTeachersHandler<T, S>(db: Result<seq<T>>): Trace<T, S> {
    [Called(GetTeachers)] +
    match db
    case Err(_) => []
    case Ok(teachers) => JsonReply(TeacherList("success", |teachers|, teachers))
  }

  /** GetTeacherHandler: an id that does not parse, or a database error,
      ends the handler without writing anything. */
  function GetTeacherHandler<T, S>(idStr: string, atoi: string -> Option<int>, db: Result<T>): Trace<T, S> {
    match atoi(idStr)
    case None => []
    case Some(id) =>
      [Called(GetTeacherByID(id))] +
      match db
      case Err(_) => []
      case Ok(teacher) => JsonReply(TeacherRecord(teacher))
  }

  function UpdateTeacherHandler<T, S>(idStr: string, atoi: string -> Option<int>, decoded: Option<T>, db: Result<T>): Trace<T, S> {
    match atoi(idStr)
    case None => ErrorEffects(InvalidTeacherId, StatusBadRequest)
    case Some(id) =>
      match decoded
      case None => ErrorEffects("Invalid Request Payload", StatusBadRequest)
      case Some(teacher) =>
        [Called(UpdateTeacher(id, teacher))] +
        match db
        case Err(e) => ErrorEffects(e, StatusBadRequest)
        case Ok(updated) => JsonReply(TeacherRecord(updated))
  }

  function PatchTeacherHandler<T, S>(idStr: string, atoi: string -> Option<int>, decoded: Option<RawObject>, db: Result<T>): Trace<T, S> {
    match atoi(idStr)
    case None => ErrorEffects(InvalidTeacherId, StatusBadRequest)
    case Some(id) =>
      match decoded
      case None => ErrorEffects("Invalid Request Payload", StatusBadRequest)
      case Some(updates) =>
        [Called(PatchTeacher(id, updates))] +
        match db
        case Err(e) => ErrorEffects(e, StatusBadRequest)
        case Ok(updated) => JsonReply(TeacherRecord(updated))
  }

  /** PatchTeachersHandler; dbError is the error PatchTeachers returns, if any. */
  function PatchTeachersHandler<T, S>(decoded: Option<seq<RawObject>>, dbError: Option<string>): Trace<T, S> {
    match decoded
    case None => ErrorEffects("Invalid request payload", StatusBadRequest)
    case Some(updates) =>
      [Called(PatchTeachers(updates))] +
      match dbError
      case Some(e) => ErrorEffects(e, StatusBadRequest)
      case None => [StatusWritten(StatusNoContent)]
  }

  /** DeleteTeacherHandler; dbError is the error DeleteOneTeacher returns, if any. */
  function DeleteTeacherHandler<T, S>(idStr: string, atoi: string -> Option<int>, dbError: Option<string>): Trace<T, S> {
    match atoi(idStr)
    case None => ErrorEffects(InvalidTeacherId, StatusBadRequest)
    case Some(id) =>
      [Called(DeleteOneTeacher(id))] +
      match dbError
      case Some(e) => ErrorEffects(e, StatusBadRequest)
      case None => JsonReply(TeacherDeleted("Teacher Successfully deleted", id))
  }

  function DeleteTeachersHandler<T, S>(decoded: Option<seq<int>>, db: Result<seq<int>>): Trace<T, S> {
    match decoded
    case None => ErrorEffects("Invalid request payload", StatusBadRequest)
    case Some(ids) =>
      [Called(DeleteTeachers(ids))] +
      match db
      case Err(e) => ErrorEffects(e, StatusBadRequest)
      case Ok(deletedIds) => JsonReply(TeachersDeleted("Teachers Successfully deleted", deletedIds))
  }

  /** GetStudentsByTeacherId; the path value goes to the database unparsed. */
  function GetStudentsByTeacherId<T, S>(teacherId: string, db: Result<seq<S>>): Trace<T, S> {
    [Called(GetStudentsByTeacherIdFomDB(teacherId))] +
    match db
    case Err(_) => ErrorEffects("Invalid request payload", StatusBadRequest)
    case Ok(students) => JsonReply(StudentList("success", |students|, students))
  }

  /** The roles GetStudentCountByTeacherId lets through. */
  const CountRoles: seq<string> := ["admin", "manager", "exec"]

  /** GetStudentCountByTeacherId. role is the "role" value of the request
      context (None when it is missing or not a string, where the type
      assertion panics); authorize is utils.AuthorizeUser, giving its error. */
  function GetStudentCountByTeacherId<T, S>(
    role: Option<string>, authorize: (string, seq<string>) -> Option<string>,
    teacherId: string, db: Result<int>): Trace<T, S> {
    match role
    case None => [Panicked]
    case Some(r) =>
      match authorize(r, CountRoles)
      case Some(e) => ErrorEffects(e, StatusBadRequest)
      case None =>
        [Called(GetStudentCountByTeacherIdFromDB(teacherId))] +
        match db
        case Err(_) => ErrorEffects("Invalid request payload", StatusBadRequest)
        case Ok(count) => JsonReply(StudentCount("success", count))
  }

  /** UpdateTeacherHandler answers an id that strconv.Atoi rejects with 400
      "Invalid Teacher Id" and makes no database call. */
  lemma UpdateInvalidId<T, S>(x: Observed<T, S>, idStr: string, atoi: string -> Option<int>, decoded: Option<T>, db: Result<T>)
    requires atoi(idStr).None?
    ensures var y := Run(x, UpdateTeacherHandler<T, S>(idStr, atoi, decoded, db));
      Answered(x, y, InvalidTeacherId, StatusBadRequest) && y.calls == x.calls
  {
    ErrorObserved<Payload<T, S>, DbCall<T>>(x, InvalidTeacherId, StatusBadRequest);
  }

  /** PatchTeacherHandler answers an id that strconv.Atoi rejects with 400
      "Invalid Teacher Id" and makes no database call. */
  lemma PatchInvalidId<T, S>(x: Observed<T, S>, idStr: string, atoi: string -> Option<int>, decoded: Option<RawObject>, db: Result<T>)
    requires atoi(idStr).None?
    ensures var y := Run(x, PatchTeacherHandler<T, S>(idStr, atoi, decoded, db));
      Answered(x, y, InvalidTeacherId, StatusBadRequest) && y.calls == x.calls
  {
    ErrorObserved<Payload<T, S>, DbCall<T>>(x, InvalidTeacherId, StatusBadRequest);
  }

  /** DeleteTeacherHandler answers an id that strconv.Atoi rejects with 400
      "Invalid Teacher Id" and makes no database call. */
  lemma DeleteInvalidId<T, S>(x: Observed<T, S>, idStr: string, atoi: string -> Option<int>, dbError: Option<string>)
    requires atoi(idStr).None?
    ensures var y := Run(x, DeleteTeacherHandler<T, S>(idStr, atoi, dbError));
      Answered(x, y, InvalidTeacherId, StatusBadRequest) && y.calls == x.calls
  {
    ErrorObserved<Payload<T, S>, DbCall<T>>(x, InvalidTeacherId, StatusBadRequest);
  }

  /** UpdateTeacherHandler answers a body that does not decode into a teacher
      with 400 "Invalid Request Payload", before any database call. */
  lemma UpdateInvalidPayload<T, S>(x: Observed<T, S>, idStr: string, atoi: string -> Option<int>, db: Result<T>)
    requires atoi(idStr).Some?
    ensures var y := Run(x, UpdateTeacherHandler<T, S>(idStr, atoi, None, db));
      Answered(x, y, "Invalid Request Payload", StatusBadRequest) && y.calls == x.calls
  {
    ErrorObserved<Payload<T, S>, DbCall<T>>(x, "Invalid Request Payload", StatusBadRequest);
  }

  /** PatchTeacherHandler answers a body that does not decode into an object
      with 400 "Invalid Request Payload", before any database call. */
  lemma PatchInvalidPayload<T, S>(x: Observed<T, S>, idStr: string, atoi: string -> Option<int>, db: Result<T>)
    requires atoi(idStr).Some?
    ensures var y := Run(x, PatchTeacherHandler<T, S>(idStr, atoi, None, db));
      Answered(x, y, "Invalid Request Payload", StatusBadRequest) && y.calls == x.calls
  {
    ErrorObserved<Payload<T, S>, DbCall<T>>(x, "Invalid Request Payload", StatusBadRequest);
  }

  /** A valid update sends the parsed id and the decoded teacher to the
      database once, and answers with the teacher the database returned. */
  lemma UpdateReturnsStored<T, S>(x: Observed<T, S>, idStr: string, atoi: string -> Option<int>, id: int, teacher: T, stored: T)
    requires atoi(idStr) == Some(id)
    ensures var y := Run(x, UpdateTeacherHandler<T, S>(idStr, atoi, Some(teacher), Ok(stored)));
      && y.calls == x.calls + [UpdateTeacher(id, teacher)]
      && FinalStatus(y) == FinalStatus(x)
      && y.body == x.body + [Json(TeacherRecord(stored))]
  {
    var c := Called(UpdateTeacher(id, teacher));
    RunFirst(x, c, JsonReply<T, S>(TeacherRecord(stored)));
    JsonObserved(Step(x, c), TeacherRecord(stored));
  }

  /** A valid patch sends the parsed id and the decoded updates to the
      database once, and answers with the teacher the database returned. */
  lemma PatchReturnsStored<T, S>(x: Observed<T, S>, idStr: string, atoi: string -> Option<int>, id: int, updates: RawObject, stored: T)
    requires atoi(idStr) == Some(id)
    ensures var y := Run(x, PatchTeacherHandler<T, S>(idStr, atoi, Some(updates), Ok(stored)));
      && y.calls == x.calls + [PatchTeacher(id, updates)]
      && FinalStatus(y) == FinalStatus(x)
      && y.body == x.body + [Json(TeacherRecord(stored))]
  {
    var c := Called(PatchTeacher(id, updates));
    RunFirst(x, c, JsonReply<T, S>(TeacherRecord(stored)));
    JsonObserved(Step(x, c), TeacherRecord(stored));
  }

  /** GetTeacherHandler with an id that does not parse, or on a database
      error, returns without writing: header, status and body are as before,
      so the client gets an empty 200. */
  lemma GetTeacherSilent<T, S>(x: Observed<T, S>, idStr: string, atoi: string -> Option<int>, db: Result<T>)
    ensures atoi(idStr).None? ==> Run(x, GetTeacherHandler<T, S>(idStr, atoi, db)) == x
    ensures atoi(idStr).Some? && db.Err? ==>
      Run(x, GetTeacherHandler<T, S>(idStr, atoi, db)) == x.(calls := x.calls + [GetTeacherByID(atoi(idStr).value)])
  {
    if atoi(idStr).Some? {
      var t := GetTeacherHandler<T, S>(idStr, atoi, db);
      assert t == [Called(GetTeacherByID(atoi(idStr).value))] + t[1..];
      RunFirst(x, Called(GetTeacherByID(atoi(idStr).value)), t[1..]);
    }
  }

  /** A parsed id is looked up once, and the teacher the database returned is
      sent as JSON with status 200 unless one was written before. */
  lemma GetTeacherReturnsStored<T, S>(x: Observed<T, S>, idStr: string, atoi: string -> Option<int>, id: int, stored: T)
    requires atoi(idStr) == Some(id)
    ensures var y := Run(x, GetTeacherHandler<T, S>(idStr, atoi, Ok(stored)));
      && y.calls == x.calls + [GetTeacherByID(id)]
      && FinalStatus(y) == FinalStatus(x)
      && y.body == x.body + [Json(TeacherRecord(stored))]
      && ContentType in y.header && y.header[ContentType] == JsonContentType
  {
    var c := Called(GetTeacherByID(id));
    RunFirst(x, c, JsonReply<T, S>(TeacherRecord(stored)));
    JsonObserved(Step(x, c), TeacherRecord(stored));
  }

  /** GetTeachersHandler on a database error returns without writing. */
  lemma GetTeachersSilent<T, S>(x: Observed<T, S>, db: Result<seq<T>>)
    requires db.Err?
    ensures Run(x, GetTeachersHandler<T, S>(db)) == x.(calls := x.calls + [GetTeachers])
  {
    RunFirst(x, Called(GetTeachers), []);
  }

  /** GetTeachersHandler's list carries Count equal to the length of the
      Data the database returned. */
  lemma GetTeachersCount<T, S>(x: Observed<T, S>, teachers: seq<T>)
    ensures var y := Run(x, GetTeachersHandler<T, S>(Ok(teachers)));
      && y.calls == x.calls + [GetTeachers] && FinalStatus(y) == FinalStatus(x)
      && |y.body| == |x.body| + 1
      && var p := y.body[|y.body| - 1];
         p.Json? && p.value.TeacherList? && p.value.status == "success"
         && p.value.data == teachers && p.value.count == |p.value.data|
  {
    var c := Called(GetTeachers);
    RunFirst(x, c, JsonReply<T, S>(TeacherList("success", |teachers|, teachers)));
    JsonObserved(Step(x, c), TeacherList("success", |teachers|, teachers));
  }

  /** GetStudentsByTeacherId's list carries Count equal to the length of the
      Data the database returned; a lookup error is answered 400. */
  lemma StudentsByTeacherCount<T, S>(x: Observed<T, S>, teacherId: string, students: seq<S>, message: string)
    ensures var y := Run(x, GetStudentsByTeacherId<T, S>(teacherId, Ok(students)));
      && y.calls == x.calls + [GetStudentsByTeacherIdFomDB(teacherId)] && FinalStatus(y) == FinalStatus(x)
      && |y.body| == |x.body| + 1
      && var p := y.body[|y.body| - 1];
         p.Json? && p.value.StudentList? && p.value.status == "success"
         && p.value.students == students && p.value.count == |p.value.students|
    ensures var y := Run(x, GetStudentsByTeacherId<T, S>(teacherId, Err(message)));
      && Answered(x, y, "Invalid request payload", StatusBadRequest)
      && y.calls == x.calls + [GetStudentsByTeacherIdFomDB(teacherId)]
  {
    var c := Called(GetStudentsByTeacherIdFomDB(teacherId));
    RunFirst(x, c, JsonReply<T, S>(StudentList("success", |students|, students)));
    JsonObserved(Step(x, c), StudentList("success", |students|, students));
    RunFirst(x, c, ErrorEffects<Payload<T, S>, DbCall<T>>("Invalid request payload", StatusBadRequest));
    ErrorObserved<Payload<T, S>, DbCall<T>>(Step(x, c), "Invalid request payload", StatusBadRequest);
  }

  /** A successful DeleteTeacherHandler deletes the parsed id and echoes it,
      with status text "Teacher Successfully deleted". */
  lemma DeleteEchoesId<T, S>(x: Observed<T, S>, idStr: string, atoi: string -> Option<int>, id: int)
    requires atoi(idStr) == Some(id)
    ensures var y := Run(x, DeleteTeacherHandler<T, S>(idStr, atoi, None));
      && y.calls == x.calls + [DeleteOneTeacher(id)]
      && FinalStatus(y) == FinalStatus(x)
      && y.body == x.body + [Json(TeacherDeleted("Teacher Successfully deleted", id))]
      && ContentType in y.header && y.header[ContentType] == JsonContentType
  {
    var c := Called(DeleteOneTeacher(id));
    RunFirst(x, c, JsonReply<T, S>(TeacherDeleted("Teacher Successfully deleted", id)));
    JsonObserved(Step(x, c), TeacherDeleted("Teacher Successfully deleted", id));
  }

  /** A successful PatchTeachersHandler answers 204 and writes no body. */
  lemma PatchTeachersNoContent<T, S>(x: Observed<T, S>, updates: seq<RawObject>)
    ensures var y := Run(x, PatchTeachersHandler<T, S>(Some(updates), None));
      && y.calls == x.calls + [PatchTeachers(updates)]
      && y.status == (if x.status == 0 then StatusNoContent else x.status)
      && y.body == x.body
  {
    RunFirst(x, Called(PatchTeachers(updates)), [StatusWritten(StatusNoContent)]);
  }

  /** DeleteTeachersHandler deletes the decoded ids and answers with the ids
      the database reports deleted; an undecodable body is answered 400
      "Invalid request payload" without a database call. */
  lemma DeleteTeachersEchoesIds<T, S>(x: Observed<T, S>, ids: seq<int>, deletedIds: seq<int>)
    ensures var y := Run(x, DeleteTeachersHandler<T, S>(Some(ids), Ok(deletedIds)));
      && y.calls == x.calls + [DeleteTeachers(ids)]
      && y.body == x.body + [Json(TeachersDeleted("Teachers Successfully deleted", deletedIds))]
    ensures var y := Run(x, DeleteTeachersHandler<T, S>(None, Ok(deletedIds)));
      Answered(x, y, "Invalid request payload", StatusBadRequest) && y.calls == x.calls
  {
    var c := Called(DeleteTeachers(ids));
    RunFirst(x, c, JsonReply<T, S>(TeachersDeleted("Teachers Successfully deleted", deletedIds)));
    JsonObserved(Step(x, c), TeachersDeleted("Teachers Successfully deleted", deletedIds));
    ErrorObserved<Payload<T, S>, DbCall<T>>(x, "Invalid request payload", StatusBadRequest);
  }

  /** GetStudentCountByTeacherId answers an authorization failure with 400
      and AuthorizeUser's error before any database lookup, and asks
      AuthorizeUser about exactly the roles admin, manager and exec. */
  lemma StudentCountAuthGuard<T, S>(
    x: Observed<T, S>, role: string, authorize: (string, seq<string>) -> Option<string>,
    teacherId: string, db: Result<int>, message: string)
    requires authorize(role, ["admin", "manager", "exec"]) == Some(message)
    ensures var y := Run(x, GetStudentCountByTeacherId<T, S>(Some(role), authorize, teacherId, db));
      Answered(x, y, message, StatusBadRequest) && y.calls == x.calls
  {
    ErrorObserved<Payload<T, S>, DbCall<T>>(x, message, StatusBadRequest);
  }

  /** Without a string "role" in the request context the type assertion
      panics: nothing is written and nothing is looked up. */
  lemma StudentCountMissingRole<T, S>(
    x: Observed<T, S>, authorize: (string, seq<string>) -> Option<string>, teacherId: string, db: Result<int>)
    ensures var y := Run(x, GetStudentCountByTeacherId<T, S>(None, authorize, teacherId, db));
      y == x.(panicked := true)
  {
  }

  /** Once authorized, the count is looked up for the path value and returned
      as it came from the database. */
  lemma StudentCountAnswered<T, S>(
    x: Observed<T, S>, role: string, authorize: (string, seq<string>) -> Option<string>,
    teacherId: string, count: int)
    requires authorize(role, CountRoles).None?
    ensures var y := Run(x, GetStudentCountByTeacherId<T, S>(Some(role), authorize, teacherId, Ok(count)));
      && y.calls == x.calls + [GetStudentCountByTeacherIdFromDB(teacherId)]
      && y.body == x.body + [Json(StudentCount("success", count))]
  {
    var c := Called(GetStudentCountByTeacherIdFromDB(teacherId));
    RunFirst(x, c, JsonReply<T, S>(StudentCount("success", count)));
    JsonObserved(Step(x, c), StudentCount("success", count));
  }

  // ---------------------------------------------------------------------
  // Database errors: each is answered 400 with the database's own message,
  // after the one call that produced it.

  /** UpdateTeacherHandler answers a failed UpdateTeacher with 400 and its error. */
  lemma UpdateDbError<T, S>(x: Observed<T, S>, idStr: string, atoi: string -> Option<int>, id: int, teacher: T, e: string)
    requires atoi(idStr) == Some(id)
    ensures var y := Run(x, UpdateTeacherHandler<T, S>(idStr, atoi, Some(teacher), Err(e)));
      Answered(x, y, e, StatusBadRequest) && y.calls == x.calls + [UpdateTeacher(id, teacher)]
  {
    var c := Called(UpdateTeacher(id, teacher));
    RunFirst(x, c, ErrorEffects<Payload<T, S>, DbCall<T>>(e, StatusBadRequest));
    ErrorObserved<Payload<T, S>, DbCall<T>>(Step(x, c), e, StatusBadRequest);
  }

  /** PatchTeacherHandler answers a failed PatchTeacher with 400 and its error. */
  lemma PatchDbError<T, S>(x: Observed<T, S>, idStr: string, atoi: string -> Option<int>, id: int, updates: RawObject, e: string)
    requires atoi(idStr) == Some(id)
    ensures var y := Run(x, PatchTeacherHandler<T, S>(idStr, atoi, Some(updates), Err(e)));
      Answered(x, y, e, StatusBadRequest) && y.calls == x.calls + [PatchTeacher(id, updates)]
  {
    var c := Called(PatchTeacher(id, updates));
    RunFirst(x, c, ErrorEffects<Payload<T, S>, DbCall<T>>(e, StatusBadRequest));
    ErrorObserved<Payload<T, S>, DbCall<T>>(Step(x, c), e, StatusBadRequest);
  }

  /** PatchTeachersHandler answers an undecodable body with 400 "Invalid
      request payload" without a database call, and a failed PatchTeachers
      with 400 and its error after the one call. */
  lemma PatchTeachersRejected<T, S>(x: Observed<T, S>, updates: seq<RawObject>, e: string, dbError: Option<string>)
    ensures var y := Run(x, PatchTeachersHandler<T, S>(None, dbError));
      Answered(x, y, "Invalid request payload", StatusBadRequest) && y.calls == x.calls
    ensures var y := Run(x, PatchTeachersHandler<T, S>(Some(updates), Some(e)));
      Answered(x, y, e, StatusBadRequest) && y.calls == x.calls + [PatchTeachers(updates)]
  {
    ErrorObserved<Payload<T, S>, DbCall<T>>(x, "Invalid request payload", StatusBadRequest);
    var c := Called(PatchTeachers(updates));
    RunFirst(x, c, ErrorEffects<Payload<T, S>, DbCall<T>>(e, StatusBadRequest));
    ErrorObserved<Payload<T, S>, DbCall<T>>(Step(x, c), e, StatusBadRequest);
  }

  /** DeleteTeacherHandler answers a failed DeleteOneTeacher with 400 and its error. */
  lemma DeleteDbError<T, S>(x: Observed<T, S>, idStr: string, atoi: string -> Option<int>, id: int, e: string)
    requires atoi(idStr) == Some(id)
    ensures var y := Run(x, DeleteTeacherHandler<T, S>(idStr, atoi, Some(e)));
      Answered(x, y, e, StatusBadRequest) && y.calls == x.calls + [DeleteOneTeacher(id)]
  {
    var c := Called(DeleteOneTeacher(id));
    RunFirst(x, c, ErrorEffects<Payload<T, S>, DbCall<T>>(e, StatusBadRequest));
    ErrorObserved<Payload<T, S>, DbCall<T>>(Step(x, c), e, StatusBadRequest);
  }

  /** DeleteTeachersHandler answers a failed DeleteTeachers with 400 and its error. */
  lemma DeleteTeachersDbError<T, S>(x: Observed<T, S>, ids: seq<int>, e: string)
    ensures var y := Run(x, DeleteTeachersHandler<T, S>(Some(ids), Err(e)));
      Answered(x, y, e, StatusBadRequest) && y.calls == x.calls + [DeleteTeachers(ids)]
  {
    var c := Called(DeleteTeachers(ids));
    RunFirst(x, c, ErrorEffects<Payload<T, S>, DbCall<T>>(e, StatusBadRequest));
    ErrorObserved<Payload<T, S>, DbCall<T>>(Step(x, c), e, StatusBadRequest);
  }

  /** Once authorized, a failed count lookup is answered 400 "Invalid request
      payload" (the database's error is not shown) after the one lookup. */
  lemma CountDbError<T, S>(
    x: Observed<T, S>, role: string, authorize: (string, seq<string>) -> Option<string>,
    teacherId: string, e: string)
    requires authorize(role, CountRoles).None?
    ensures var y := Run(x, GetStudentCountByTeacherId<T, S>(Some(role), authorize, teacherId, Err(e)));
      && Answered(x, y, "Invalid request payload", StatusBadRequest)
      && y.calls == x.calls + [GetStudentCountByTeacherIdFromDB(teacherId)]
  {
    var c := Called(GetStudentCountByTeacherIdFromDB(teacherId));
    RunFirst(x, c, ErrorEffects<Payload<T, S>, DbCall<T>>("Invalid request payload", StatusBadRequest));
    ErrorObserved<Payload<T, S>, DbCall<T>>(Step(x, c), "Invalid request payload", StatusBadRequest);
  }

  // ---------------------------------------------------------------------
  // Every handler consults the database at most once, before writing.

  lemma GetTeachersCallFirst<T, S>(db: Result<seq<T>>)
    ensures CallFirst(GetTeachersHandler<T, S>(db))
  {
  }

  lemma GetTeacherCallFirst<T, S>(idStr: string, atoi: string -> Option<int>, db: Result<T>)
    ensures CallFirst(GetTeacherHandler<T, S>(idStr, atoi, db))
  {
  }

  lemma UpdateCallFirst<T, S>(idStr: string, atoi: string -> Option<int>, decoded: Option<T>, db: Result<T>)
    ensures CallFirst(UpdateTeacherHandler<T, S>(idStr, atoi, decoded, db))
  {
  }

  lemma PatchCallFirst<T, S>(idStr: string, atoi: string -> Option<int>, decoded: Option<RawObject>, db: Result<T>)
    ensures CallFirst(PatchTeacherHandler<T, S>(idStr, atoi, decoded, db))
  {
  }

  lemma PatchTeachersCallFirst<T, S>(decoded: Option<seq<RawObject>>, dbError: Option<string>)
    ensures CallFirst(PatchTeachersHandler<T, S>(decoded, dbError))
  {
  }

  lemma DeleteCallFirst<T, S>(idStr: string, atoi: string -> Option<int>, dbError: Option<string>)
    ensures CallFirst(DeleteTeacherHandler<T, S>(idStr, atoi, dbError))
  {
  }

  lemma DeleteTeachersCallFirst<T, S>(decoded: Option<seq<int>>, db: Result<seq<int>>)
    ensures CallFirst(DeleteTeachersHandler<T, S>(decoded, db))
  {
  }

  lemma StudentsCallFirst<T, S>(teacherId: string, db: Result<seq<S>>)
    ensures CallFirst(GetStudentsByTeacherId<T, S>(teacherId, db))
  {
  }

  lemma StudentCountCallFirst<T, S>(
    role: Option<string>, authorize: (string, seq<string>) -> Option<string>,
    teacherId: string, db: Result<int>)
    ensures CallFirst(GetStudentCountByTeacherId<T, S>(role, authorize, teacherId, db))
  {
  }
}
