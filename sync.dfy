/** Properties that span the server and the client: what the client shows
    after loading a tenant's list, and which record a client-side id selects
    when it comes back to the server in a URL. */
module Sync {
  import opened JsValues
  import opened Wire
  import opened Ids
  import opened Seqs
  import opened SessionGuard
  import opened TaskStore
  import opened TaskApi
  import opened Timeline

  /** The tasks the client holds after loading the list the server gives
      tenant `company`. */
  function LoadedFromServer(records: map<nat, TaskRecord>, nextId: nat, company: Option<string>): seq<Task>
    requires WellFormed(records, nextId)
  {
    LoadedTasks(Ok(MapSeq(ListTasks(records, nextId, company), ToApiTask)))
  }

  /** A tenant without tasks sees exactly the placeholder list. */
  lemma EmptyTenantShowsPlaceholder(records: map<nat, TaskRecord>, nextId: nat, company: Option<string>)
    requires WellFormed(records, nextId) && TenantIds(records, company) == {}
    ensures LoadedFromServer(records, nextId, company) == DefaultTasks
  {
    assert |ListTasks(records, nextId, company)| == 0;
  }

  /** A tenant with tasks sees one real task per record, and the id of each,
      sent back by the client, selects for that tenant the very record the
      task was made from. */
  lemma LoadedIdsSelectTheirRecords(records: map<nat, TaskRecord>, nextId: nat, company: Option<string>)
    requires WellFormed(records, nextId) && TenantIds(records, company) != {}
    ensures var tasks := LoadedFromServer(records, nextId, company);
            var listed := ListTasks(records, nextId, company);
            && |tasks| == |listed| == |TenantIds(records, company)|
            && NoneSynthetic(tasks)
            && forall i :: 0 <= i < |tasks| ==> FindTenantTask(records, tasks[i].id, company) == Some(listed[i])
  {
    var listed := ListTasks(records, nextId, company);
    var id :| id in TenantIds(records, company);
    assert |listed| > 0 by {
      assert Visible(records, company, records[id]);
      assert records[id] in listed;
    }
    var tasks := LoadedFromServer(records, nextId, company);
    forall i | 0 <= i < |tasks|
      ensures FindTenantTask(records, tasks[i].id, company) == Some(listed[i])
    {
      assert listed[i] in listed;
      assert tasks[i] == FormatTask(ToApiTask(listed[i]));
    }
    assert AllSynthetic(tasks) ==> NoneSynthetic(tasks) by {
      assert tasks[0] in tasks;
    }
  }

  const Admin: Claims := Claims(1, "admin", Some("CrossingDelta"))

  /** A token check that accepts one token, issued to admin. */
  function AdminOnly(token: string): Option<Claims> {
    if token == "signed" then Some(Admin) else None
  }

  lemma AdminHeaderProceeds()
    ensures Guard(Some("Bearer signed"), AdminOnly) == Proceed(Admin)
  {
    assert ' ' !in "Bearer" && ' ' !in "signed";
    assert "Bearer signed" == "Bearer" + " " + "signed";
    SchemeAndToken("Bearer", "signed");
    assert HeaderToken(Some("Bearer signed")) == Some("signed");
  }

  lemma ParseOne()
    ensures ParseId("1") == Some(1)
  {
    ParseNatToString(1);
  }

  lemma FindOnlyTask(t: TaskRecord)
    requires t.id == 1
    ensures FindTenantTask(map[1 := t], "1", Some(t.company)) == Some(t)
  {
    ParseOne();
  }

  const KickoffBody: TaskBody :=
    EmptyBody.(name := Given("Kickoff"),
               start := Given(DateText("2025-03-01", 1740787200000)),
               end := Given(DateText("2025-03-15", 1741996800000)))

  const ProgressBody: TaskBody := EmptyBody.(progress := Given(75))

  /** Step one of the walk-through: admin creates "Kickoff" in an empty store. */
  method CreateKickoff(store: Store, header: Option<string>, verify: string -> Option<Claims>) returns (t: TaskRecord, created: ApiTask)
    requires Guard(header, verify) == Proceed(Admin)
    requires store.Valid() && store.records == map[] && store.nextId == 1
    modifies store
    ensures store.Valid() && store.records == map[1 := t] && store.nextId == 2
    ensures t.id == 1 && Admin.company == Some(t.company)
    ensures created == ToApiTask(t)
    ensures created.progress == Some(0) && created.taskType == Some("task") && created.isDisabled == Some(false)
  {
    var r := HandleCreate(store, header, verify, KickoffBody);
    t := CreatedRecord(1, KickoffBody, Admin);
    created := r.body.task;
  }

  /** Step two: admin sets the progress of task 1 to 75. */
  method UpdateKickoff(store: Store, header: Option<string>, verify: string -> Option<Claims>, t: TaskRecord) returns (m: TaskRecord, updated: ApiTask)
    requires Guard(header, verify) == Proceed(Admin)
    requires store.Valid() && store.records == map[1 := t] && t.id == 1 && Admin.company == Some(t.company)
    modifies store
    ensures store.Valid() && store.records == map[1 := m] && m.id == 1 && Admin.company == Some(m.company)
    ensures updated == ToApiTask(t).(progress := Some(75))
  {
    FindOnlyTask(t);
    var r := HandleUpdate(store, header, verify, "1", ProgressBody);
    m := Merge(t, ProgressBody);
    assert store.records == map[1 := t][t.id := m];
    updated := r.body.task;
    ProgressOnlyUpdate(t, 75);
  }

  /** Step three: admin deletes task 1 and lists the tenant's tasks again. */
  method DeleteKickoff(store: Store, header: Option<string>, verify: string -> Option<Claims>, m: TaskRecord) returns (afterDelete: Response)
    requires Guard(header, verify) == Proceed(Admin)
    requires store.Valid() && store.records == map[1 := m] && m.id == 1 && Admin.company == Some(m.company)
    modifies store
    ensures afterDelete == Response(200, TaskList([]))
  {
    FindOnlyTask(m);
    var _ := HandleDelete(store, header, verify, "1");
    assert store.records == map[];
    afterDelete := HandleList(store, header, verify);
    assert TenantIds(store.records, Admin.company) == {};
    assert |ListTasks(store.records, store.nextId, Admin.company)| == 0;
  }

  /** A walk-through: admin creates "Kickoff" with only
      name and dates and gets the defaults, sets its progress to 75, which is
      all that changes, deletes it, and is left with an empty list, which the
      client shows as the placeholder list. */
  method KickoffScenario() returns (created: ApiTask, updated: ApiTask, afterDelete: Response, shown: seq<Task>)
    ensures created.progress == Some(0) && created.taskType == Some("task") && created.isDisabled == Some(false)
    ensures updated == created.(progress := Some(75))
    ensures afterDelete == Response(200, TaskList([]))
    ensures shown == DefaultTasks
  {
    var header, verify := Some("Bearer signed"), AdminOnly;
    AdminHeaderProceeds();
    var store := new Store();
    var t;
    t, created := CreateKickoff(store, header, verify);
    var m;
    m, updated := UpdateKickoff(store, header, verify, t);
    afterDelete := DeleteKickoff(store, header, verify, m);
    var client := new ProjectTimeline();
    var _ := client.FetchTasks(Ok(afterDelete.body.tasks));
    shown := client.tasks;
  }
}
