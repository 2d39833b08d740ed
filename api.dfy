/** The four `/api/tasks` handlers. Each first runs the session guard; the
    list, update and delete handlers then query only the caller's tenant,
    and the create handler stamps the tenant and owner from the session. */
module TaskApi {
  import opened JsValues
  import opened Wire
  import opened Seqs
  import opened SessionGuard
  import opened TaskStore

  const MsgFieldsRequired: string := "필수 필드를 입력해주세요."
  const MsgTaskNotFound: string := "태스크를 찾을 수 없습니다."
  const MsgTaskDeleted: string := "태스크가 삭제되었습니다."
  const MsgCreateFailed: string := "태스크 생성 중 오류가 발생했습니다."

  /** The JSON body of a create or update request. `company` stands for any
      key the handlers do not destructure: a client may send it, and it is
      ignored. */
  datatype TaskBody = TaskBody(
    name: Field<string>,
    start: Field<DateText>,
    end: Field<DateText>,
    progress: Field<int>,
    taskType: Field<string>,
    isDisabled: Field<bool>,
    styles: Field<Styles>,
    company: Field<string>)

  const EmptyBody: TaskBody := TaskBody(Undefined, Undefined, Undefined, Undefined, Undefined, Undefined, Undefined, Undefined)

  /** `name && start && end`: the check before a create. */
  predicate RequiredFieldsPresent(b: TaskBody) {
    TruthyText(b.name) && TruthyDate(b.start) && TruthyDate(b.end)
  }

  /** The check admits a body exactly when name, start and end are all
      non-empty strings: an absent, null or empty one is refused. */
  lemma RequiredFieldsChecked(b: TaskBody)
    ensures RequiredFieldsPresent(b) <==>
              && b.name.Given? && b.name.value != ""
              && b.start.Given? && b.start.value.text != ""
              && b.end.Given? && b.end.value.text != ""
    ensures b.name.Null? || b.start.Null? || b.end.Null? ==> !RequiredFieldsPresent(b)
  {
  }

  /** The record a create stores under `id`: the required fields as given,
      the defaults for falsy optional ones, tenant and owner from the session. */
  function CreatedRecord(id: nat, b: TaskBody, claims: Claims): (t: TaskRecord)
    requires RequiredFieldsPresent(b) && claims.company.Some?
    ensures t.id == id && t.name == b.name.value
    ensures t.start == b.start.value.instant && t.end == b.end.value.instant
    ensures t.company == claims.company.value && t.userId == claims.id
    ensures !TruthyNumber(b.progress) ==> t.progress == Some(0)
    ensures !TruthyText(b.taskType) ==> t.taskType == "task"
    ensures !TruthyFlag(b.isDisabled) ==> t.isDisabled == Some(false)
    ensures b.styles.Given? ==> t.styles == Some(b.styles.value)
    ensures !b.styles.Given? ==> t.styles == Some(EmptyStyles)
    ensures TruthyNumber(b.progress) ==> t.progress == Some(b.progress.value)
    ensures TruthyText(b.taskType) ==> t.taskType == b.taskType.value
    ensures TruthyFlag(b.isDisabled) ==> t.isDisabled == Some(true)
  {
    TaskRecord(
      id, b.name.value, b.start.value.instant, b.end.value.instant,
      Some(NumberOr(b.progress, 0)), TextOr(b.taskType, "task"), Some(FlagOr(b.isDisabled, false)),
      claims.company.value, Some(ObjectOr(b.styles, EmptyStyles)), claims.id)
  }

  /** The values `task.update` receives: `name`, `type`, `styles`, `start` and
      `end` replace the stored value only when truthy; `progress` and
      `isDisabled` replace it whenever they are not `undefined`, so 0, false
      and even null take effect; id, tenant and owner never change. */
  function Merge(t: TaskRecord, b: TaskBody): (r: TaskRecord)
    ensures r.id == t.id && r.company == t.company && r.userId == t.userId
    ensures r.name != t.name ==> TruthyText(b.name) && r.name == b.name.value
    ensures r.taskType != t.taskType ==> TruthyText(b.taskType) && r.taskType == b.taskType.value
    ensures r.start != t.start ==> TruthyDate(b.start) && r.start == b.start.value.instant
    ensures r.end != t.end ==> TruthyDate(b.end) && r.end == b.end.value.instant
    ensures StylesOf(r) != StylesOf(t) ==> b.styles.Given? && StylesOf(r) == b.styles.value
    ensures r.progress != t.progress ==> !b.progress.Undefined?
    ensures r.isDisabled != t.isDisabled ==> !b.isDisabled.Undefined?
    ensures b.progress.Given? ==> r.progress == Some(b.progress.value)
    ensures b.isDisabled.Given? ==> r.isDisabled == Some(b.isDisabled.value)
    ensures b.progress.Null? ==> r.progress == None
    ensures b.isDisabled.Null? ==> r.isDisabled == None
    ensures TruthyText(b.name) ==> r.name == b.name.value
    ensures TruthyText(b.taskType) ==> r.taskType == b.taskType.value
    ensures TruthyDate(b.start) ==> r.start == b.start.value.instant
    ensures TruthyDate(b.end) ==> r.end == b.end.value.instant
    ensures b.styles.Given? ==> StylesOf(r) == b.styles.value
  {
    t.(name := TextOr(b.name, t.name),
       start := DateOr(b.start, t.start),
       end := DateOr(b.end, t.end),
       progress := UnlessUndefined(b.progress, t.progress),
       taskType := TextOr(b.taskType, t.taskType),
       isDisabled := UnlessUndefined(b.isDisabled, t.isDisabled),
       styles := Some(ObjectOr(b.styles, StylesOf(t))))
  }

  /** Falsy values of the two `!== undefined` fields take effect, while falsy
      values of the truthiness-tested fields are ignored. */
  lemma FalsyValuesInUpdate(t: TaskRecord, name: string)
    ensures var b := EmptyBody.(name := Given(""), taskType := Given(""), progress := Given(0), isDisabled := Given(false));
            var r := Merge(t, b);
            r.progress == Some(0) && r.isDisabled == Some(false) && r.name == t.name && r.taskType == t.taskType
  {
  }

  /** A JSON `null` progress or isDisabled is stored as NULL. */
  lemma NullClearsProgress(t: TaskRecord)
    ensures Merge(t, EmptyBody.(progress := Null, isDisabled := Null)).progress == None
    ensures Merge(t, EmptyBody.(progress := Null, isDisabled := Null)).isDisabled == None
  {
  }

  /** An update that supplies nothing leaves the task as the API shows it. */
  lemma EmptyUpdateKeepsTask(t: TaskRecord)
    ensures ToApiTask(Merge(t, EmptyBody)) == ToApiTask(t)
  {
  }

  /** Updating only `progress` changes only `progress`, even to 0. */
  lemma ProgressOnlyUpdate(t: TaskRecord, p: int)
    ensures ToApiTask(Merge(t, EmptyBody.(progress := Given(p)))) == ToApiTask(t).(progress := Some(p))
  {
  }

  /** Sending the same update twice has the effect of sending it once. */
  lemma MergeIdempotent(t: TaskRecord, b: TaskBody)
    ensures Merge(Merge(t, b), b) == Merge(t, b)
  {
  }

  /** A `company` key in the body changes neither a created nor an updated record. */
  lemma BodyCompanyIgnored(t: TaskRecord, b: TaskBody, claims: Claims, id: nat, c: Field<string>)
    requires RequiredFieldsPresent(b) && claims.company.Some?
    ensures CreatedRecord(id, b.(company := c), claims) == CreatedRecord(id, b, claims)
    ensures Merge(t, b.(company := c)) == Merge(t, b)
  {
  }

  /** Whatever one tenant creates, updates or deletes, every other tenant's
      lists and lookups stay as they were. */
  lemma WritesInvisibleToOthers(records: map<nat, TaskRecord>, t: TaskRecord, b: TaskBody,
                                created: TaskRecord, other: Option<string>)
    requires t.id in records && records[t.id] == t && other != Some(t.company)
    requires created.id !in records && other != Some(created.company)
    ensures SameTenantView(records, records[t.id := Merge(t, b)], other)
    ensures SameTenantView(records, records - {t.id}, other)
    ensures SameTenantView(records, records[created.id := created], other)
  {
    ForeignWriteInvisible(records, t.id, Merge(t, b), other);
    ForeignWriteInvisible(records, created.id, created, other);
  }

  /** `GET /api/tasks`. */
  method HandleList(store: Store, header: Option<string>, verify: string -> Option<Claims>) returns (resp: Response)
    requires store.Valid()
    ensures var g := Guard(header, verify);
            if !g.Proceed? then resp == Rejection(g)
            else resp == Response(200, TaskList(MapSeq(ListTasks(store.records, store.nextId, g.claims.company), ToApiTask)))
  {
    var g := Guard(header, verify);
    if !g.Proceed? {
      return Rejection(g);
    }
    var tasks := ListTasks(store.records, store.nextId, g.claims.company);
    resp := Response(200, TaskList(MapSeq(tasks, ToApiTask)));
  }

  /** `POST /api/tasks`. A session without a company fails the table's
      not-null constraint on `company`, which the handler reports as 500. */
  method HandleCreate(store: Store, header: Option<string>, verify: string -> Option<Claims>, body: TaskBody)
    returns (resp: Response)
    requires store.Valid()
    modifies store
    ensures store.Valid()
    ensures var g := Guard(header, verify);
            var kept := store.records == old(store.records) && store.nextId == old(store.nextId);
            if !g.Proceed? then resp == Rejection(g) && kept
            else if !RequiredFieldsPresent(body) then resp == Response(400, Message(MsgFieldsRequired)) && kept
            else if g.claims.company.None? then resp == Response(500, Message(MsgCreateFailed)) && kept
            else
              var t := CreatedRecord(old(store.nextId), body, g.claims);
              && t.id !in old(store.records)
              && store.records == old(store.records)[t.id := t]
              && store.nextId == old(store.nextId) + 1
              && resp == Response(200, OneTask(ToApiTask(t)))
  {
    var g := Guard(header, verify);
    if !g.Proceed? {
      return Rejection(g);
    }
    if !RequiredFieldsPresent(body) {
      return Response(400, Message(MsgFieldsRequired));
    }
    if g.claims.company.None? {
      return Response(500, Message(MsgCreateFailed));
    }
    var t := store.Create(CreatedRecord(store.nextId, body, g.claims));
    resp := Response(200, OneTask(ToApiTask(t)));
  }

  /** `PUT /api/tasks/:id`. An id that is missing and an id of another tenant
      get the same 404. */
  method HandleUpdate(store: Store, header: Option<string>, verify: string -> Option<Claims>,
                      idText: string, body: TaskBody)
    returns (resp: Response)
    requires store.Valid()
    modifies store
    ensures store.Valid()
    ensures var g := Guard(header, verify);
            var kept := store.records == old(store.records) && store.nextId == old(store.nextId);
            if !g.Proceed? then resp == Rejection(g) && kept
            else
              match FindTenantTask(old(store.records), idText, g.claims.company)
              case None => resp == Response(404, Message(MsgTaskNotFound)) && kept
              case Some(t) =>
                && store.records == old(store.records)[t.id := Merge(t, body)]
                && store.nextId == old(store.nextId)
                && resp == Response(200, OneTask(ToApiTask(Merge(t, body))))
  {
    var g := Guard(header, verify);
    if !g.Proceed? {
      return Rejection(g);
    }
    var found := FindTenantTask(store.records, idText, g.claims.company);
    if found.None? {
      return Response(404, Message(MsgTaskNotFound));
    }
    var updated := Merge(found.value, body);
    store.Save(updated);
    resp := Response(200, OneTask(ToApiTask(updated)));
  }

  /** `DELETE /api/tasks/:id`. */
  method HandleDelete(store: Store, header: Option<string>, verify: string -> Option<Claims>, idText: string)
    returns (resp: Response)
    requires store.Valid()
    modifies store
    ensures store.Valid()
    ensures var g := Guard(header, verify);
            var kept := store.records == old(store.records) && store.nextId == old(store.nextId);
            if !g.Proceed? then resp == Rejection(g) && kept
            else
              match FindTenantTask(old(store.records), idText, g.claims.company)
              case None => resp == Response(404, Message(MsgTaskNotFound)) && kept
              case Some(t) =>
                && store.records == old(store.records) - {t.id}
                && store.nextId == old(store.nextId)
                && resp == Response(200, Message(MsgTaskDeleted))
  {
    var g := Guard(header, verify);
    if !g.Proceed? {
      return Rejection(g);
    }
    var found := FindTenantTask(store.records, idText, g.claims.company);
    if found.None? {
      return Response(404, Message(MsgTaskNotFound));
    }
    store.Destroy(found.value.id);
    resp := Response(200, Message(MsgTaskDeleted));
  }
}
