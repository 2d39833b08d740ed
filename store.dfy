/** The `ProjectTask` table: a map from id to record with an auto-increment
    counter, the `styles` getter, and the two queries the handlers run,
    `findAll` (one tenant's tasks ordered by start) and `findOne` (one id
    within one tenant). */
module TaskStore {
  import opened JsValues
  import opened Wire
  import opened Ids

  /** A row of the table. `progress` and `isDisabled` may be SQL NULL
      (`None`); `styles` is the raw JSON column, `None` when it is empty. */
  datatype TaskRecord = TaskRecord(
    id: nat,
    name: string,
    start: Date,
    end: Date,
    progress: Option<int>,
    taskType: string,
    isDisabled: Option<bool>,
    company: string,
    styles: Option<Styles>,
    userId: nat)

  /** The `styles` getter: an empty raw value reads as `{}`. */
  function StylesOf(t: TaskRecord): (r: Styles)
    ensures t.styles.None? ==> r == EmptyStyles
    ensures t.styles.None? ==> r.progressColor.None? && r.progressSelectedColor.None? &&
                               r.backgroundColor.None? && r.backgroundSelectedColor.None?
    ensures t.styles.Some? ==> r == t.styles.value
  {
    if t.styles.None? then EmptyStyles else t.styles.value
  }

  /** What the setter stores the getter reads back. */
  lemma StylesRoundTrip(t: TaskRecord, s: Styles)
    ensures StylesOf(t.(styles := Some(s))) == s
  {
  }

  /** The JSON the handlers send for a record (`{id, name, start, end,
      progress, type, isDisabled, styles}`); company and owner stay inside. */
  function ToApiTask(t: TaskRecord): (r: ApiTask)
    ensures r.id == t.id && r.name == t.name && r.start == t.start && r.end == t.end
    ensures r.progress == t.progress && r.isDisabled == t.isDisabled
    ensures r.taskType == Some(t.taskType) && r.styles == Some(StylesOf(t))
  {
    ApiTask(t.id, t.name, t.start, t.end, t.progress, Some(t.taskType), t.isDisabled, Some(StylesOf(t)))
  }

  /** The response never shows the tenant or the owner: records that differ
      only there look the same. */
  lemma ApiTaskHidesTenant(t: TaskRecord, company: string, userId: nat)
    ensures ToApiTask(t.(company := company, userId := userId)) == ToApiTask(t)
  {
  }

  /** Every record is filed under its own id, and every id was handed out
      by the counter. */
  ghost predicate WellFormed(records: map<nat, TaskRecord>, nextId: nat) {
    forall id :: id in records ==> records[id].id == id && 0 < id < nextId
  }

  /** `t` is a stored record of tenant `company`. A caller whose claims carry no
      company sees nothing: no record has a null company. */
  ghost predicate Visible(records: map<nat, TaskRecord>, company: Option<string>, t: TaskRecord) {
    t.id in records && records[t.id] == t && company == Some(t.company)
  }

  ghost function TenantIdsBelow(records: map<nat, TaskRecord>, company: Option<string>, k: nat): set<nat> {
    set id | id in records && id < k && company == Some(records[id].company)
  }

  ghost function TenantIds(records: map<nat, TaskRecord>, company: Option<string>): set<nat> {
    set id | id in records && company == Some(records[id].company)
  }

  /** Two tables look the same to tenant `company`: the same ids are its, with
      the same records. */
  ghost predicate SameTenantView(r1: map<nat, TaskRecord>, r2: map<nat, TaskRecord>, company: Option<string>) {
    (forall id :: id in r1 && company == Some(r1[id].company) ==> id in r2 && r2[id] == r1[id]) &&
    (forall id :: id in r2 && company == Some(r2[id].company) ==> id in r1 && r1[id] == r2[id])
  }

  predicate SortedByStart(s: seq<TaskRecord>) {
    forall i, j :: 0 <= i < j < |s| ==> s[i].start <= s[j].start
  }

  /** `t` inserted before the first record that does not start earlier. */
  function InsertByStart(t: TaskRecord, s: seq<TaskRecord>): (r: seq<TaskRecord>)
    ensures multiset(r) == multiset(s) + multiset{t}
    ensures |r| == |s| + 1
    ensures r[0] == t || (s != [] && r[0] == s[0])
  {
    if s == [] || t.start <= s[0].start then [t] + s
    else
      assert s == [s[0]] + s[1..];
      [s[0]] + InsertByStart(t, s[1..])
  }

  lemma {:induction false} InsertKeepsSorted(t: TaskRecord, s: seq<TaskRecord>)
    requires SortedByStart(s)
    ensures SortedByStart(InsertByStart(t, s))
  {
    if s != [] && t.start > s[0].start {
      var tail := InsertByStart(t, s[1..]);
      InsertKeepsSorted(t, s[1..]);
      HeadBeforeInsert(s[0], t, s[1..]);
      SortedCons(s[0], tail);
    }
  }

  /** A record no later than `t` and than all of `s` is no later than any
      record of `InsertByStart(t, s)`. */
  lemma HeadBeforeInsert(h: TaskRecord, t: TaskRecord, s: seq<TaskRecord>)
    requires h.start <= t.start
    requires forall j :: 0 <= j < |s| ==> h.start <= s[j].start
    ensures forall j :: 0 <= j < |InsertByStart(t, s)| ==> h.start <= InsertByStart(t, s)[j].start
  {
    var r := InsertByStart(t, s);
    forall j | 0 <= j < |r| ensures h.start <= r[j].start {
      assert r[j] in multiset(r);
    }
  }

  lemma SortedCons(h: TaskRecord, s: seq<TaskRecord>)
    requires SortedByStart(s)
    requires forall j :: 0 <= j < |s| ==> h.start <= s[j].start
    ensures SortedByStart([h] + s)
  {
    var r := [h] + s;
    forall i, j | 0 <= i < j < |r| ensures r[i].start <= r[j].start {
      if i > 0 {
        assert r[i] == s[i - 1];
      }
      assert r[j] == s[j - 1];
    }
  }

  /** `ORDER BY start ASC`, as a stable insertion sort. */
  function SortByStart(s: seq<TaskRecord>): (r: seq<TaskRecord>)
    ensures multiset(r) == multiset(s)
    ensures SortedByStart(r)
  {
    if s == [] then []
    else
      InsertKeepsSorted(s[0], SortByStart(s[1..]));
      assert s == [s[0]] + s[1..];
      InsertByStart(s[0], SortByStart(s[1..]))
  }

  /** The records of tenant `company` with ids below `k`, in id order. */
  function Collect(records: map<nat, TaskRecord>, company: Option<string>, k: nat): seq<TaskRecord>
    decreases k
  {
    if k == 0 then []
    else
      Collect(records, company, k - 1) +
      (if k - 1 in records && company == Some(records[k - 1].company) then [records[k - 1]] else [])
  }

  lemma {:induction false} CollectMembers(records: map<nat, TaskRecord>, company: Option<string>, k: nat)
    requires forall id :: id in records ==> records[id].id == id
    ensures forall t :: t in Collect(records, company, k) <==> Visible(records, company, t) && t.id < k
    decreases k
  {
    if k > 0 {
      CollectMembers(records, company, k - 1);
    }
  }

  lemma {:induction false} CollectLength(records: map<nat, TaskRecord>, company: Option<string>, k: nat)
    ensures |Collect(records, company, k)| == |TenantIdsBelow(records, company, k)|
    decreases k
  {
    if k > 0 {
      CollectLength(records, company, k - 1);
      var below := TenantIdsBelow(records, company, k - 1);
      var here := TenantIdsBelow(records, company, k);
      if k - 1 in records && company == Some(records[k - 1].company) {
        assert here == below + {k - 1} by {
          forall id ensures id in here <==> id in below + {k - 1} {
          }
        }
        assert k - 1 !in below;
      } else {
        assert here == below by {
          forall id ensures id in here <==> id in below {
          }
        }
      }
    }
  }

  /** `findAll({where: {company}, order: [["start", "ASC"]]})`: every record
      of the caller's tenant and no other, each once, ordered by start.
      Records that start together come out in id order, which SQL leaves
      unspecified. */
  function ListTasks(records: map<nat, TaskRecord>, nextId: nat, company: Option<string>): (r: seq<TaskRecord>)
    requires WellFormed(records, nextId)
    ensures SortedByStart(r)
    ensures forall t :: t in r <==> Visible(records, company, t)
    ensures |r| == |TenantIds(records, company)|
  {
    CollectMembers(records, company, nextId);
    CollectLength(records, company, nextId);
    assert TenantIdsBelow(records, company, nextId) == TenantIds(records, company);
    var r := SortByStart(Collect(records, company, nextId));
    assert |multiset(r)| == |multiset(Collect(records, company, nextId))|;
    assert forall t :: t in r <==> t in multiset(Collect(records, company, nextId));
    r
  }

  /** `findOne({where: {id, company}})` with the `:id` path parameter as text. */
  function FindTenantTask(records: map<nat, TaskRecord>, idText: string, company: Option<string>): (r: Option<TaskRecord>)
    ensures r.Some? <==> ParseId(idText).Some? && ParseId(idText).value in records &&
                         company == Some(records[ParseId(idText).value].company)
    ensures r.Some? ==> r.value == records[ParseId(idText).value]
  {
    match ParseId(idText)
    case None => None
    case Some(id) =>
      if id in records && company == Some(records[id].company) then Some(records[id]) else None
  }

  lemma {:induction false} CollectIsolation(r1: map<nat, TaskRecord>, r2: map<nat, TaskRecord>,
                                            company: Option<string>, k: nat)
    requires SameTenantView(r1, r2, company)
    ensures Collect(r1, company, k) == Collect(r2, company, k)
    decreases k
  {
    if k > 0 {
      CollectIsolation(r1, r2, company, k - 1);
    }
  }

  /** Tenant isolation of the queries: what a tenant lists and looks up depends
      only on its own records, so other tenants' records, present or not, make
      no difference. */
  lemma TenantIsolation(r1: map<nat, TaskRecord>, r2: map<nat, TaskRecord>, nextId: nat,
                        company: Option<string>, idText: string)
    requires WellFormed(r1, nextId) && WellFormed(r2, nextId)
    requires SameTenantView(r1, r2, company)
    ensures ListTasks(r1, nextId, company) == ListTasks(r2, nextId, company)
    ensures FindTenantTask(r1, idText, company) == FindTenantTask(r2, idText, company)
  {
    CollectIsolation(r1, r2, company, nextId);
    FindIsolation(r1, r2, company, idText);
  }

  lemma FindIsolation(r1: map<nat, TaskRecord>, r2: map<nat, TaskRecord>, company: Option<string>, idText: string)
    requires SameTenantView(r1, r2, company)
    ensures FindTenantTask(r1, idText, company) == FindTenantTask(r2, idText, company)
  {
  }

  /** Writing or removing another tenant's record leaves this tenant's view as it was. */
  lemma ForeignWriteInvisible(records: map<nat, TaskRecord>, id: nat, t: TaskRecord, company: Option<string>)
    requires id in records ==> company != Some(records[id].company)
    requires company != Some(t.company)
    ensures SameTenantView(records, records[id := t], company)
    ensures SameTenantView(records, records - {id}, company)
  {
  }

  /** A record of another tenant and a missing id look the same to the caller. */
  lemma ForeignIdLooksMissing(records: map<nat, TaskRecord>, idText: string, company: Option<string>)
    requires ParseId(idText).Some? && ParseId(idText).value in records
    requires company != Some(records[ParseId(idText).value].company)
    ensures FindTenantTask(records, idText, company)
         == FindTenantTask(records - {ParseId(idText).value}, idText, company)
  {
  }

  class Store {
    var records: map<nat, TaskRecord>
    var nextId: nat

    ghost predicate Valid()
      reads this
    {
      0 < nextId && WellFormed(records, nextId)
    }

    /** An empty table whose first id is 1. */
    constructor ()
      ensures Valid() && records == map[] && nextId == 1
    {
      records := map[];
      nextId := 1;
    }

    /** `ProjectTask.create(values)`: the record is stored under the next
        auto-increment id, whatever id `values` holds; ids are never reused. */
    method Create(values: TaskRecord) returns (t: TaskRecord)
      requires Valid()
      modifies this
      ensures Valid()
      ensures t == values.(id := old(nextId)) && t.id !in old(records)
      ensures records == old(records)[t.id := t] && nextId == old(nextId) + 1
    {
      t := values.(id := nextId);
      records := records[nextId := t];
      nextId := nextId + 1;
    }

    /** `task.update(values)`: the found record is overwritten with its new values. */
    method Save(t: TaskRecord)
      requires Valid() && t.id in records
      modifies this
      ensures Valid()
      ensures records == old(records)[t.id := t] && nextId == old(nextId)
    {
      records := records[t.id := t];
    }

    /** `task.destroy()`: the found record is removed. */
    method Destroy(id: nat)
      requires Valid() && id in records
      modifies this
      ensures Valid()
      ensures records == old(records) - {id} && nextId == old(nextId)
    {
      records := records - {id};
    }
  }
}
