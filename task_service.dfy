/** The task service: the `fetchRecords` parameters of the task list and of
    its three buckets (due today, upcoming, completed), the records sent on
    create, update and completion, and how its replies are read. The service
    never throws: a failure reads as an empty list, `null` or `false`. */
module TaskService {
  import opened Js
  import opened RecordStore

  const TableName: string := "task_c"

  /** The projection of `getAll`. */
  const AllTaskFields: seq<string> :=
    ["Name", "description_c", "priority_c", "due_date_c", "contact_c", "deal_c",
     "type_c", "status_c", "notes_c", "CreatedOn", "ModifiedOn"]

  /** The projection of the bucket getters: the same without the audit fields. */
  const BucketFields: seq<string> :=
    ["Name", "description_c", "priority_c", "due_date_c", "contact_c", "deal_c",
     "type_c", "status_c", "notes_c"]

  /** One optional filter: the key read from the filter map, the task field it
      constrains, and whether its value goes through `parseInt`. */
  datatype FilterSpec = FilterSpec(key: string, field: string, numeric: bool)

  const StatusFilter := FilterSpec("status", "status_c", false)
  const PriorityFilter := FilterSpec("priority", "priority_c", false)
  const ContactFilter := FilterSpec("contact", "contact_c", true)
  const DealFilter := FilterSpec("deal", "deal_c", true)
  const TypeFilter := FilterSpec("type", "type_c", false)

  /** The filters `getAll` understands, in the order it appends them. */
  const AllTasksFilters: seq<FilterSpec> := [StatusFilter, PriorityFilter, ContactFilter, DealFilter]

  /** The filters the bucket getters append after their fixed prefix, in order. */
  const BucketFilters: seq<FilterSpec> := [ContactFilter, DealFilter, PriorityFilter, TypeFilter]

  /** The value a filter contributes: the id filters go through `parseInt`,
      the others are passed on as given. */
  function FilterValue(f: Obj, spec: FilterSpec): Value {
    if spec.numeric then ParsedInt(Get(f, spec.key)) else Get(f, spec.key)
  }

  /** The condition of one filter whose value is truthy. */
  function FilterCondition(f: Obj, spec: FilterSpec): Condition {
    Equal(spec.field, FilterValue(f, spec))
  }

  /** What one filter adds: its condition when its value is truthy, nothing otherwise. */
  function FilterConditions(f: Obj, spec: FilterSpec): seq<Condition> {
    if Truthy(Get(f, spec.key)) then [FilterCondition(f, spec)] else []
  }

  /** The conditions contributed by the filters of `specs`, in their order. */
  function Conditions(f: Obj, specs: seq<FilterSpec>): (w: seq<Condition>)
    ensures |w| <= |specs|
  {
    if specs == [] then [] else FilterConditions(f, specs[0]) + Conditions(f, specs[1..])
  }

  lemma ConditionsCons(f: Obj, spec: FilterSpec, rest: seq<FilterSpec>)
    ensures Conditions(f, [spec] + rest) == FilterConditions(f, spec) + Conditions(f, rest)
  {
    assert ([spec] + rest)[1..] == rest;
  }

  /** The position of the first filter on `field` in `specs`, or -1. */
  function IndexOfField(specs: seq<FilterSpec>, field: string): (k: int)
    ensures -1 <= k < |specs|
    ensures k >= 0 ==> specs[k].field == field && forall j :: 0 <= j < k ==> specs[j].field != field
    ensures k == -1 ==> forall j :: 0 <= j < |specs| ==> specs[j].field != field
  {
    if specs == [] then -1
    else if specs[0].field == field then 0
    else
      var k := IndexOfField(specs[1..], field);
      if k == -1 then -1 else k + 1
  }

  predicate DistinctFields(specs: seq<FilterSpec>) {
    forall i, j :: 0 <= i < j < |specs| ==> specs[i].field != specs[j].field
  }

  /** Some condition of `w` is on `field`. */
  predicate Mentions(w: seq<Condition>, field: string) {
    exists i :: 0 <= i < |w| && w[i].fieldName == field
  }

  /** With distinct fields, the filter at position `k` is the one found for its field. */
  lemma IndexOfDistinct(specs: seq<FilterSpec>, k: int)
    requires DistinctFields(specs) && 0 <= k < |specs|
    ensures IndexOfField(specs, specs[k].field) == k
  {
    var m := IndexOfField(specs, specs[k].field);
    assert m != -1;
  }

  lemma DistinctTail(specs: seq<FilterSpec>)
    requires DistinctFields(specs) && specs != []
    ensures DistinctFields(specs[1..])
    ensures forall j :: 0 <= j < |specs[1..]| ==> specs[1..][j].field != specs[0].field
  {
    forall i, j | 0 <= i < j < |specs[1..]|
      ensures specs[1..][i].field != specs[1..][j].field
    {
      assert specs[1..][i] == specs[i + 1] && specs[1..][j] == specs[j + 1];
    }
  }

  /** `c` is the `EqualTo` of the filter of `specs` on its field, and that
      filter's value is truthy. */
  predicate FromFilter(f: Obj, specs: seq<FilterSpec>, c: Condition) {
    var k := IndexOfField(specs, c.fieldName);
    0 <= k && c == FilterCondition(f, specs[k]) && Truthy(Get(f, specs[k].key))
  }

  /** Every emitted condition comes from the filter of its field. */
  lemma {:induction false} ConditionsSource(f: Obj, specs: seq<FilterSpec>)
    requires DistinctFields(specs)
    ensures forall c :: c in Conditions(f, specs) ==> FromFilter(f, specs, c)
  {
    if specs != [] {
      DistinctTail(specs);
      ConditionsSource(f, specs[1..]);
      forall c | c in Conditions(f, specs)
        ensures FromFilter(f, specs, c)
      {
        if c !in FilterConditions(f, specs[0]) {
          assert c in Conditions(f, specs[1..]);
          var k := IndexOfField(specs[1..], c.fieldName);
          assert FromFilter(f, specs[1..], c);
          assert specs[1..][k] == specs[k + 1];
          assert IndexOfField(specs, c.fieldName) == k + 1;
        }
      }
    }
  }

  /** The conditions of `w` come in the order of their filters in `specs`. */
  predicate InFilterOrder(specs: seq<FilterSpec>, w: seq<Condition>) {
    forall i, j :: 0 <= i < j < |w| ==> IndexOfField(specs, w[i].fieldName) < IndexOfField(specs, w[j].fieldName)
  }

  /** Conditions come in the order of their filters in `specs`. */
  lemma {:induction false} ConditionsOrdered(f: Obj, specs: seq<FilterSpec>)
    requires DistinctFields(specs)
    ensures InFilterOrder(specs, Conditions(f, specs))
  {
    if specs != [] {
      DistinctTail(specs);
      ConditionsOrdered(f, specs[1..]);
      var head := FilterConditions(f, specs[0]);
      var rest := Conditions(f, specs[1..]);
      TailIndexShift(f, specs, rest);
      forall i, j | 0 <= i < j < |rest|
        ensures IndexOfField(specs, rest[i].fieldName) < IndexOfField(specs, rest[j].fieldName)
      {
        assert IndexOfField(specs[1..], rest[i].fieldName) < IndexOfField(specs[1..], rest[j].fieldName);
      }
      assert forall i :: 0 <= i < |head| ==> head[i].fieldName == specs[0].field;
      ConcatOrdered(specs, head, rest);
    }
  }

  /** A condition from the later filters sits one position further in `specs`
      than in its tail. */
  lemma TailIndexShift(f: Obj, specs: seq<FilterSpec>, rest: seq<Condition>)
    requires DistinctFields(specs) && specs != []
    requires rest == Conditions(f, specs[1..])
    ensures forall i :: 0 <= i < |rest| ==> IndexOfField(specs, rest[i].fieldName) >= 1
    ensures forall i :: 0 <= i < |rest| ==>
      IndexOfField(specs, rest[i].fieldName) == IndexOfField(specs[1..], rest[i].fieldName) + 1
  {
    DistinctTail(specs);
    ConditionsSource(f, specs[1..]);
    forall i | 0 <= i < |rest|
      ensures IndexOfField(specs, rest[i].fieldName) == IndexOfField(specs[1..], rest[i].fieldName) + 1 >= 1
    {
      assert FromFilter(f, specs[1..], rest[i]) by { assert rest[i] in rest; }
      var k := IndexOfField(specs[1..], rest[i].fieldName);
      assert specs[1..][k] == specs[k + 1];
    }
  }

  /** The condition of the first filter followed by conditions of later filters,
      already in order, are in order. */
  lemma ConcatOrdered(specs: seq<FilterSpec>, head: seq<Condition>, rest: seq<Condition>)
    requires |head| <= 1
    requires forall i :: 0 <= i < |head| ==> IndexOfField(specs, head[i].fieldName) == 0
    requires forall i :: 0 <= i < |rest| ==> IndexOfField(specs, rest[i].fieldName) >= 1
    requires InFilterOrder(specs, rest)
    ensures InFilterOrder(specs, head + rest)
  {
    var w := head + rest;
    forall i, j | 0 <= i < j < |w|
      ensures IndexOfField(specs, w[i].fieldName) < IndexOfField(specs, w[j].fieldName)
    {
      assert w[j] == rest[j - |head|];
      if i >= |head| {
        assert w[i] == rest[i - |head|];
      } else {
        assert w[i] == head[i];
      }
    }
  }

  /** A filter's field is constrained exactly when the filter's value is truthy. */
  lemma ConditionsMention(f: Obj, specs: seq<FilterSpec>, k: int)
    requires DistinctFields(specs) && 0 <= k < |specs|
    ensures Mentions(Conditions(f, specs), specs[k].field) <==> Truthy(Get(f, specs[k].key))
  {
    if Mentions(Conditions(f, specs), specs[k].field) {
      MentionedIsTruthy(f, specs, k);
    }
    if Truthy(Get(f, specs[k].key)) {
      TruthyIsMentioned(f, specs, k);
    }
  }

  /** A field is constrained only by its own filter, whose value is then truthy. */
  lemma MentionedIsTruthy(f: Obj, specs: seq<FilterSpec>, k: int)
    requires DistinctFields(specs) && 0 <= k < |specs|
    requires Mentions(Conditions(f, specs), specs[k].field)
    ensures Truthy(Get(f, specs[k].key))
  {
    var w := Conditions(f, specs);
    ConditionsSource(f, specs);
    IndexOfDistinct(specs, k);
    var i :| 0 <= i < |w| && w[i].fieldName == specs[k].field;
    assert w[i] in w;
  }

  /** A filter whose value is truthy constrains its field. */
  lemma {:induction false} TruthyIsMentioned(f: Obj, specs: seq<FilterSpec>, k: int)
    requires DistinctFields(specs) && 0 <= k < |specs|
    requires Truthy(Get(f, specs[k].key))
    ensures Mentions(Conditions(f, specs), specs[k].field)
  {
    var w := Conditions(f, specs);
    var head := FilterConditions(f, specs[0]);
    var rest := Conditions(f, specs[1..]);
    assert w == head + rest;
    if k == 0 {
      assert w[0].fieldName == specs[0].field;
    } else {
      DistinctTail(specs);
      assert specs[1..][k - 1] == specs[k];
      TruthyIsMentioned(f, specs[1..], k - 1);
      var i :| 0 <= i < |rest| && rest[i].fieldName == specs[k].field;
      assert w[i + |head|] == rest[i];
    }
  }

  // ---------------------------------------------------------------------------
  // getAll

  /** The conditions of `getAll(filters)`: status, priority, contact and deal,
      in that order, each only when its filter value is truthy. */
  function AllTasksWhere(f: Obj): seq<Condition> {
    Conditions(f, AllTasksFilters)
  }

  lemma AllTasksWhereSteps(f: Obj)
    ensures AllTasksWhere(f) ==
      FilterConditions(f, StatusFilter) + FilterConditions(f, PriorityFilter)
      + FilterConditions(f, ContactFilter) + FilterConditions(f, DealFilter)
  {
    var d := [DealFilter];
    var cd := [ContactFilter] + d;
    var pcd := [PriorityFilter] + cd;
    assert AllTasksFilters == [StatusFilter] + pcd;
    ConditionsCons(f, DealFilter, []);
    ConditionsCons(f, ContactFilter, d);
    ConditionsCons(f, PriorityFilter, cd);
    ConditionsCons(f, StatusFilter, pcd);
  }

  /** The parameters of `getAll(filters)`: the `where` key is present only
      when at least one condition was added; sorted by due date ascending. */
  function AllTasksParams(f: Obj): FetchParams {
    var w := AllTasksWhere(f);
    FetchParams(AllTaskFields, if w == [] then None else Some(w), [OrderBy("due_date_c", Asc)], None)
  }

  /** `getAll` builds its parameters step by step: `where` is created by the
      first filter that applies and each later one is pushed onto it. */
  method BuildAllTasksParams(f: Obj) returns (p: FetchParams)
    ensures p == AllTasksParams(f)
  {
    p := FetchParams(AllTaskFields, None, [OrderBy("due_date_c", Asc)], None);
    ghost var added: seq<Condition> := [];
    if Truthy(Get(f, "status")) {
      p := p.(where := Some([Equal("status_c", Get(f, "status"))]));
      added := [FilterCondition(f, StatusFilter)];
    }
    assert added == FilterConditions(f, StatusFilter);
    ghost var before := added;
    if Truthy(Get(f, "priority")) {
      var existing := if p.where.Some? then p.where.value else [];
      existing := existing + [Equal("priority_c", Get(f, "priority"))];
      p := p.(where := Some(existing));
      added := added + [FilterCondition(f, PriorityFilter)];
    }
    assert added == before + FilterConditions(f, PriorityFilter);
    before := added;
    if Truthy(Get(f, "contact")) {
      var existing := if p.where.Some? then p.where.value else [];
      existing := existing + [Equal("contact_c", ParsedInt(Get(f, "contact")))];
      p := p.(where := Some(existing));
      added := added + [FilterCondition(f, ContactFilter)];
    }
    assert added == before + FilterConditions(f, ContactFilter);
    before := added;
    if Truthy(Get(f, "deal")) {
      var existing := if p.where.Some? then p.where.value else [];
      existing := existing + [Equal("deal_c", ParsedInt(Get(f, "deal")))];
      p := p.(where := Some(existing));
      added := added + [FilterCondition(f, DealFilter)];
    }
    assert added == before + FilterConditions(f, DealFilter);
    AllTasksWhereSteps(f);
    assert added == AllTasksWhere(f);
    assert p.where == if added == [] then None else Some(added);
  }

  /** The filters of `getAll` sit at positions 0 to 3 in the order status,
      priority, contact, deal, and `type` is not among them. */
  lemma AllTasksFilterOrder()
    ensures DistinctFields(AllTasksFilters)
    ensures IndexOfField(AllTasksFilters, "status_c") == 0
    ensures IndexOfField(AllTasksFilters, "priority_c") == 1
    ensures IndexOfField(AllTasksFilters, "contact_c") == 2
    ensures IndexOfField(AllTasksFilters, "deal_c") == 3
    ensures IndexOfField(AllTasksFilters, "type_c") == -1
  {
    var specs := AllTasksFilters;
    assert specs[0].field == "status_c" && specs[1].field == "priority_c";
    assert specs[2].field == "contact_c" && specs[3].field == "deal_c";
    IndexOfDistinct(specs, 0);
    IndexOfDistinct(specs, 1);
    IndexOfDistinct(specs, 2);
    IndexOfDistinct(specs, 3);
  }

  /** `getAll` sends no `where` at all exactly when none of status, priority,
      contact and deal is set; each of those fields is constrained exactly
      when its filter is set; `type` is never constrained; the sort is by
      due date ascending. */
  lemma AllTasksQuery(f: Obj)
    ensures var p := AllTasksParams(f);
      && p.orderBy == [OrderBy("due_date_c", Asc)]
      && (p.where.None? <==>
            !Truthy(Get(f, "status")) && !Truthy(Get(f, "priority"))
            && !Truthy(Get(f, "contact")) && !Truthy(Get(f, "deal")))
    ensures var w := AllTasksWhere(f);
      && (Mentions(w, "status_c") <==> Truthy(Get(f, "status")))
      && (Mentions(w, "priority_c") <==> Truthy(Get(f, "priority")))
      && (Mentions(w, "contact_c") <==> Truthy(Get(f, "contact")))
      && (Mentions(w, "deal_c") <==> Truthy(Get(f, "deal")))
      && !Mentions(w, "type_c")
  {
    var specs := AllTasksFilters;
    var w := AllTasksWhere(f);
    AllTasksFilterOrder();
    ConditionsSource(f, specs);
    ConditionsMention(f, specs, 0);
    ConditionsMention(f, specs, 1);
    ConditionsMention(f, specs, 2);
    ConditionsMention(f, specs, 3);
    forall i | 0 <= i < |w|
      ensures w[i].fieldName != "type_c"
    {
      assert FromFilter(f, specs, w[i]) by { assert w[i] in w; }
    }
    if w != [] {
      var k := IndexOfField(specs, w[0].fieldName);
      assert FromFilter(f, specs, w[0]) by { assert w[0] in w; }
      ConditionsMention(f, specs, k);
    }
  }

  /** Each condition of `getAll` is one of the four filters' `EqualTo`s, with
      the contact and deal values through `parseInt` and the others passed
      unchanged, and they come in the order status, priority, contact, deal. */
  lemma AllTasksValues(f: Obj)
    ensures var w := AllTasksWhere(f);
      forall i :: 0 <= i < |w| ==>
        w[i] in {Equal("status_c", Get(f, "status")), Equal("priority_c", Get(f, "priority")),
                 Equal("contact_c", ParsedInt(Get(f, "contact"))), Equal("deal_c", ParsedInt(Get(f, "deal")))}
    ensures var w := AllTasksWhere(f);
      forall i, j :: 0 <= i < j < |w| ==>
        IndexOfField(AllTasksFilters, w[i].fieldName) < IndexOfField(AllTasksFilters, w[j].fieldName)
  {
    var specs := AllTasksFilters;
    var w := AllTasksWhere(f);
    AllTasksFilterOrder();
    ConditionsSource(f, specs);
    ConditionsOrdered(f, specs);
    forall i | 0 <= i < |w|
      ensures w[i] in {Equal("status_c", Get(f, "status")), Equal("priority_c", Get(f, "priority")),
                       Equal("contact_c", ParsedInt(Get(f, "contact"))), Equal("deal_c", ParsedInt(Get(f, "deal")))}
    {
      assert FromFilter(f, specs, w[i]) by { assert w[i] in w; }
    }
  }

  // ---------------------------------------------------------------------------
  // The buckets

  datatype Bucket = DueToday | Upcoming | Completed

  /** The current instant as the getters format it: `toISOString()` and the
      en-US `toLocaleDateString` label of today. */
  datatype Clock = Clock(nowIso: string, todayLabel: string)

  /** The fixed conditions each bucket starts with. */
  function BucketPrefix(b: Bucket, clock: Clock): seq<Condition> {
    match b
    case DueToday =>
      [Equal("status_c", Str("Open")),
       Condition("due_date_c", ExactMatch, Some("Day"), [Str(clock.todayLabel)])]
    case Upcoming =>
      [Equal("status_c", Str("Open")),
       Condition("due_date_c", GreaterThan, None, [Str(clock.nowIso)])]
    case Completed =>
      [Equal("status_c", Str("Completed"))]
  }

  /** Due today and upcoming tasks are sorted by due date, completed ones by
      last modification, newest first. */
  function BucketOrder(b: Bucket): OrderBy {
    if b == Completed then OrderBy("ModifiedOn", Desc) else OrderBy("due_date_c", Asc)
  }

  /** The parameters of a bucket getter: the fixed prefix, then the extra
      filters contact, deal, priority and type. */
  function BucketParams(b: Bucket, f: Obj, clock: Clock): FetchParams {
    FetchParams(BucketFields, Some(BucketPrefix(b, clock) + Conditions(f, BucketFilters)), [BucketOrder(b)], None)
  }

  lemma BucketConditionsSteps(f: Obj)
    ensures Conditions(f, BucketFilters) ==
      FilterConditions(f, ContactFilter) + FilterConditions(f, DealFilter)
      + FilterConditions(f, PriorityFilter) + FilterConditions(f, TypeFilter)
  {
    var t := [TypeFilter];
    var pt := [PriorityFilter] + t;
    var dpt := [DealFilter] + pt;
    assert BucketFilters == [ContactFilter] + dpt;
    ConditionsCons(f, TypeFilter, []);
    ConditionsCons(f, PriorityFilter, t);
    ConditionsCons(f, DealFilter, pt);
    ConditionsCons(f, ContactFilter, dpt);
  }

  /** The pushes the three bucket getters share, each guarded by its filter. */
  method PushBucketFilters(w: seq<Condition>, f: Obj) returns (w': seq<Condition>)
    ensures w' == w + Conditions(f, BucketFilters)
  {
    BucketConditionsSteps(f);
    w' := w;
    if Truthy(Get(f, "contact")) {
      w' := w' + [Equal("contact_c", ParsedInt(Get(f, "contact")))];
    }
    assert w' == w + FilterConditions(f, ContactFilter);
    if Truthy(Get(f, "deal")) {
      w' := w' + [Equal("deal_c", ParsedInt(Get(f, "deal")))];
    }
    assert w' == w + FilterConditions(f, ContactFilter) + FilterConditions(f, DealFilter);
    if Truthy(Get(f, "priority")) {
      w' := w' + [Equal("priority_c", Get(f, "priority"))];
    }
    assert w' == w + FilterConditions(f, ContactFilter) + FilterConditions(f, DealFilter)
      + FilterConditions(f, PriorityFilter);
    if Truthy(Get(f, "type")) {
      w' := w' + [Equal("type_c", Get(f, "type"))];
    }
  }

  /** `getDueToday(filters)`. */
  method GetDueTodayParams(f: Obj, clock: Clock) returns (p: FetchParams)
    ensures p == BucketParams(DueToday, f, clock)
  {
    var w := [Equal("status_c", Str("Open")),
              Condition("due_date_c", ExactMatch, Some("Day"), [Str(clock.todayLabel)])];
    w := PushBucketFilters(w, f);
    p := FetchParams(BucketFields, Some(w), [OrderBy("due_date_c", Asc)], None);
  }

  /** `getUpcoming(filters)`. */
  method GetUpcomingParams(f: Obj, clock: Clock) returns (p: FetchParams)
    ensures p == BucketParams(Upcoming, f, clock)
  {
    var w := [Equal("status_c", Str("Open")),
              Condition("due_date_c", GreaterThan, None, [Str(clock.nowIso)])];
    w := PushBucketFilters(w, f);
    p := FetchParams(BucketFields, Some(w), [OrderBy("due_date_c", Asc)], None);
  }

  /** `getCompleted(filters)`. */
  method GetCompletedParams(f: Obj, clock: Clock) returns (p: FetchParams)
    ensures p == BucketParams(Completed, f, clock)
  {
    var w := [Equal("status_c", Str("Completed"))];
    w := PushBucketFilters(w, f);
    p := FetchParams(BucketFields, Some(w), [OrderBy("ModifiedOn", Desc)], None);
  }

  /** The extra filters of the buckets sit at positions 0 to 3 in the order
      contact, deal, priority, type, and status is not among them. */
  lemma BucketFilterOrder()
    ensures DistinctFields(BucketFilters)
    ensures IndexOfField(BucketFilters, "contact_c") == 0
    ensures IndexOfField(BucketFilters, "deal_c") == 1
    ensures IndexOfField(BucketFilters, "priority_c") == 2
    ensures IndexOfField(BucketFilters, "type_c") == 3
    ensures IndexOfField(BucketFilters, "status_c") == -1
  {
    var specs := BucketFilters;
    assert specs[0].field == "contact_c" && specs[1].field == "deal_c";
    assert specs[2].field == "priority_c" && specs[3].field == "type_c";
    IndexOfDistinct(specs, 0);
    IndexOfDistinct(specs, 1);
    IndexOfDistinct(specs, 2);
    IndexOfDistinct(specs, 3);
  }

  /** Every bucket query always has a `where` that starts with its fixed
      prefix: status Open and due date on today's calendar day, status Open
      and due date after now, or status Completed. Due today and upcoming are
      sorted by due date ascending, completed by modification time, newest first. */
  lemma BucketQueryPrefix(b: Bucket, f: Obj, clock: Clock)
    ensures var p := BucketParams(b, f, clock);
      && p.where.Some?
      && var w := p.where.value;
      && |w| >= |BucketPrefix(b, clock)| >= 1
      && w[..|BucketPrefix(b, clock)|] == BucketPrefix(b, clock)
      && w[0] == Equal("status_c", Str(if b == Completed then "Completed" else "Open"))
      && (b == DueToday ==> w[1] == Condition("due_date_c", ExactMatch, Some("Day"), [Str(clock.todayLabel)]))
      && (b == Upcoming ==> w[1] == Condition("due_date_c", GreaterThan, None, [Str(clock.nowIso)]))
      && p.orderBy == [if b == Completed then OrderBy("ModifiedOn", Desc) else OrderBy("due_date_c", Asc)]
  {
    var w := BucketPrefix(b, clock) + Conditions(f, BucketFilters);
    assert w[..|BucketPrefix(b, clock)|] == BucketPrefix(b, clock);
  }

  /** After the prefix come only the extra filters, in the order contact,
      deal, priority, type, each present exactly when set; status is never
      constrained a second time. */
  lemma BucketQueryFilters(b: Bucket, f: Obj, clock: Clock)
    ensures var w := BucketParams(b, f, clock).where.value;
      && var extra := w[|BucketPrefix(b, clock)|..];
      && (forall i, j :: 0 <= i < j < |extra| ==>
            0 <= IndexOfField(BucketFilters, extra[i].fieldName) < IndexOfField(BucketFilters, extra[j].fieldName))
      && (Mentions(extra, "contact_c") <==> Truthy(Get(f, "contact")))
      && (Mentions(extra, "deal_c") <==> Truthy(Get(f, "deal")))
      && (Mentions(extra, "priority_c") <==> Truthy(Get(f, "priority")))
      && (Mentions(extra, "type_c") <==> Truthy(Get(f, "type")))
      && !Mentions(extra, "status_c")
  {
    var specs := BucketFilters;
    var extra := Conditions(f, specs);
    var w := BucketPrefix(b, clock) + extra;
    assert w[|BucketPrefix(b, clock)|..] == extra;
    BucketFilterOrder();
    ConditionsSource(f, specs);
    ConditionsOrdered(f, specs);
    ConditionsMention(f, specs, 0);
    ConditionsMention(f, specs, 1);
    ConditionsMention(f, specs, 2);
    ConditionsMention(f, specs, 3);
    forall i | 0 <= i < |extra|
      ensures 0 <= IndexOfField(specs, extra[i].fieldName)
      ensures extra[i].fieldName != "status_c"
    {
      assert FromFilter(f, specs, extra[i]) by { assert extra[i] in extra; }
    }
  }

  // ---------------------------------------------------------------------------
  // Records sent by create, update and markComplete

  /** The fields that create and update pass on exactly as given. */
  const PassedFields: set<string> := {"Name", "description_c", "priority_c", "due_date_c", "type_c"}

  /** `x ? parseInt(x) : null`, the treatment of the contact and deal links. */
  function LinkValue(v: Value): Value {
    if Truthy(v) then ParsedInt(v) else Null
  }

  /** The fields create and update both send, with the status each of them sets. */
  function TaskFields(t: Obj, status: Value): Obj {
    map[
      "Name" := Get(t, "Name"),
      "description_c" := Get(t, "description_c"),
      "priority_c" := Get(t, "priority_c"),
      "due_date_c" := Get(t, "due_date_c"),
      "contact_c" := LinkValue(Get(t, "contact_c")),
      "deal_c" := LinkValue(Get(t, "deal_c")),
      "type_c" := Get(t, "type_c"),
      "status_c" := status,
      "notes_c" := Or(Get(t, "notes_c"), Str(""))
    ]
  }

  /** The record `create(taskData)` sends: a new task is always Open, the
      links are parsed ids or `null`, the notes default to "". */
  function CreateRecord(t: Obj): (r: Obj)
    ensures r.Keys == PassedFields + {"contact_c", "deal_c", "status_c", "notes_c"}
    ensures forall k :: k in PassedFields ==> r[k] == Get(t, k)
    ensures r["status_c"] == Str("Open")
    ensures r["contact_c"] == Null <==> !Truthy(Get(t, "contact_c"))
    ensures r["deal_c"] == Null <==> !Truthy(Get(t, "deal_c"))
    ensures Truthy(Get(t, "contact_c")) ==> r["contact_c"] == ParsedInt(Get(t, "contact_c"))
    ensures Truthy(Get(t, "deal_c")) ==> r["deal_c"] == ParsedInt(Get(t, "deal_c"))
    ensures r["notes_c"] == (if Truthy(Get(t, "notes_c")) then Get(t, "notes_c") else Str(""))
  {
    TaskFields(t, Str("Open"))
  }

  /** The record `update(id, taskData)` sends: the id through `parseInt`, the
      status as given, and every other field exactly as create shapes it. */
  function UpdateRecord(id: Value, t: Obj): (r: Obj)
    ensures r.Keys == CreateRecord(t).Keys + {"Id"}
    ensures r["Id"] == ParsedInt(id)
    ensures r["status_c"] == Get(t, "status_c")
    ensures forall k :: k in CreateRecord(t) && k != "status_c" ==> r[k] == CreateRecord(t)[k]
  {
    TaskFields(t, Get(t, "status_c"))["Id" := ParsedInt(id)]
  }

  /** The record `markComplete(id)` sends: the id and the Completed status, nothing else. */
  function CompleteRecord(id: Value): (r: Obj)
    ensures r.Keys == {"Id", "status_c"}
    ensures r["Id"] == ParsedInt(id) && r["status_c"] == Str("Completed")
  {
    map["Id" := ParsedInt(id), "status_c" := Str("Completed")]
  }

  // ---------------------------------------------------------------------------
  // Reading the replies

  /** The reply is a successful one whose `results` has an entry that succeeded. */
  predicate RecordSucceeded(resp: Response) {
    resp.Reply? && resp.success && resp.results.Some? && SomeSucceeded(resp.results.value)
  }

  /** A list getter's result: the records of a successful reply, and an empty
      list for a failed reply, a missing `data` or a client exception. */
  function ReadTaskList(resp: Response): (r: seq<Obj>)
    ensures r != [] ==> resp.Reply? && resp.success && resp.data == Some(r)
    ensures resp.Reply? && resp.success && resp.data.Some? ==> r == resp.data.value
  {
    if resp.Reply? && resp.success && resp.data.Some? then resp.data.value else []
  }

  /** `create` and `update`: the data of the first entry that succeeded, and
      `null` when the reply failed, had no `results`, no entry succeeded or
      the client threw. Failed entries only produce notifications. */
  function ReadTaskSave(resp: Response): (r: Option<Value>)
    ensures r.Some? <==> RecordSucceeded(resp)
    ensures r.Some? ==> exists i :: FirstSuccessAt(resp.results.value, i) && r.value == resp.results.value[i].data
  {
    match resp
    case TransportError(_) => None
    case Reply(success, _, _, results) =>
      if !success || results.None? then None
      else
        var ok := Successful(results.value);
        SuccessfulHead(results.value);
        if |ok| > 0 then Some(ok[0].data) else None
  }

  /** `delete` and `markComplete`: `true` exactly when some entry succeeded. */
  function ReadTaskDone(resp: Response): (r: bool)
    ensures r <==> RecordSucceeded(resp)
  {
    match resp
    case TransportError(_) => false
    case Reply(success, _, _, results) =>
      if !success || results.None? then false
      else
        SuccessfulHead(results.value);
        |Successful(results.value)| > 0
  }
}
