/** The deal service: the record built on create, with its defaults, and the
    partial record built on update. `formatDateForAPI` is not defined in the
    service object, so it is a parameter here. Replies are read by
    `RecordStore.ReadSaveReply` and `RecordStore.ReadDeleteReply`. */
module DealService {
  import opened Text
  import opened Js

  /** The keys `create` sends. */
  const CreateKeys: set<string> :=
    {"Name", "value_c", "expected_close_date_c", "stage_c", "probability_percentage_c",
     "company_c", "last_activity_date_c"}

  /** The fields `update` may send besides the Id. */
  datatype DealField = Name | Value | ExpectedCloseDate | Stage | Probability | Company | LastActivityDate

  /** The storage key of an updatable field, which is also the key `update`
      reads from its input. */
  function StorageKey(f: DealField): string {
    match f
    case Name => "Name"
    case Value => "value_c"
    case ExpectedCloseDate => "expected_close_date_c"
    case Stage => "stage_c"
    case Probability => "probability_percentage_c"
    case Company => "company_c"
    case LastActivityDate => "last_activity_date_c"
  }

  /** The record `create(dealData)` sends: the first truthy alias of each
      field, with stage "Lead", value 0 and probability 0 as the last resort;
      the company id parsed from `company_c` or `companyId`; the date part of
      now as the last activity date. */
  function CreateRecord(d: Obj, nowIso: string, formatDate: Value -> Value): (r: Obj)
    ensures r.Keys == CreateKeys
    // Name: `Name`, else the UI alias `name`.
    ensures Truthy(Get(d, "Name")) ==> r["Name"] == Get(d, "Name")
    ensures !Truthy(Get(d, "Name")) ==> r["Name"] == Get(d, "name")
    // Stage: `stage_c`, else `stage`, else "Lead"; never falsy.
    ensures Truthy(r["stage_c"])
    ensures Truthy(Get(d, "stage_c")) ==> r["stage_c"] == Get(d, "stage_c")
    ensures !Truthy(Get(d, "stage_c")) && Truthy(Get(d, "stage")) ==> r["stage_c"] == Get(d, "stage")
    ensures !Truthy(Get(d, "stage_c")) && !Truthy(Get(d, "stage")) ==> r["stage_c"] == Str("Lead")
    // Value: `value_c`, else `value`, parsed; 0 when neither is set.
    ensures Truthy(Get(d, "value_c")) ==> r["value_c"] == ParsedFloat(Get(d, "value_c"))
    ensures !Truthy(Get(d, "value_c")) && Truthy(Get(d, "value")) ==> r["value_c"] == ParsedFloat(Get(d, "value"))
    ensures !Truthy(Get(d, "value_c")) && !Truthy(Get(d, "value")) ==> r["value_c"] == Num(0.0)
    // Probability: `probability_percentage_c`, else `probability`, parsed; 0 when neither is set.
    ensures Truthy(Get(d, "probability_percentage_c")) ==>
      r["probability_percentage_c"] == ParsedInt(Get(d, "probability_percentage_c"))
    ensures !Truthy(Get(d, "probability_percentage_c")) && Truthy(Get(d, "probability")) ==>
      r["probability_percentage_c"] == ParsedInt(Get(d, "probability"))
    ensures !Truthy(Get(d, "probability_percentage_c")) && !Truthy(Get(d, "probability")) ==>
      r["probability_percentage_c"] == Num(0.0)
    // Company: `company_c`, else `companyId`, parsed.
    ensures Truthy(Get(d, "company_c")) ==> r["company_c"] == ParsedInt(Get(d, "company_c"))
    ensures !Truthy(Get(d, "company_c")) ==> r["company_c"] == ParsedInt(Get(d, "companyId"))
    // Close date: `expected_close_date_c`, else `expectedCloseDate`, through the formatter.
    ensures Truthy(Get(d, "expected_close_date_c")) ==>
      r["expected_close_date_c"] == formatDate(Get(d, "expected_close_date_c"))
    ensures !Truthy(Get(d, "expected_close_date_c")) ==>
      r["expected_close_date_c"] == formatDate(Get(d, "expectedCloseDate"))
    // Last activity: the date part of now, with no 'T' left in it.
    ensures r["last_activity_date_c"].Str? && 'T' !in r["last_activity_date_c"].s
    ensures r["last_activity_date_c"] == Str(DatePart(nowIso))
  {
    map[
      "Name" := Or(Get(d, "Name"), Get(d, "name")),
      "value_c" := ParsedFloat(Or(Or(Get(d, "value_c"), Get(d, "value")), Num(0.0))),
      "expected_close_date_c" := formatDate(Or(Get(d, "expected_close_date_c"), Get(d, "expectedCloseDate"))),
      "stage_c" := Or(Or(Get(d, "stage_c"), Get(d, "stage")), Str("Lead")),
      "probability_percentage_c" := ParsedInt(Or(Or(Get(d, "probability_percentage_c"), Get(d, "probability")), Num(0.0))),
      "company_c" := ParsedInt(Or(Get(d, "company_c"), Get(d, "companyId"))),
      "last_activity_date_c" := Str(DatePart(nowIso))
    ]
  }

  /** The record `update(id, dealData)` sends: the parsed Id and the fields
      added to it. */
  datatype DealUpdate = DealUpdate(id: Value, fields: map<DealField, Value>)

  /** The input of `field` is not `undefined`. */
  predicate Defined(d: Obj, f: DealField) {
    Get(d, StorageKey(f)) != Undefined
  }

  /** `f` is sent exactly when its input is not `undefined`, and then with value `v`. */
  predicate SendsWhenDefined(r: map<DealField, Value>, d: Obj, f: DealField, v: Value) {
    (f in r <==> Defined(d, f)) && (f in r ==> r[f] == v)
  }

  const AllDealFields: set<DealField> :=
    {Name, Value, ExpectedCloseDate, Stage, Probability, Company, LastActivityDate}

  /** The value `update` assigns to `f`: the numbers parsed, the rest as
      given. The close date is assigned twice, first as given (`rawClose`)
      and then through the date formatter. */
  function SentValue(d: Obj, f: DealField, formatDate: Value -> Value, rawClose: bool): Value {
    match f
    case Name => Get(d, "Name")
    case Value => ParsedFloat(Get(d, "value_c"))
    case ExpectedCloseDate =>
      if rawClose then Get(d, "expected_close_date_c") else formatDate(Get(d, "expected_close_date_c"))
    case Stage => Get(d, "stage_c")
    case Probability => ParsedInt(Get(d, "probability_percentage_c"))
    case Company => ParsedInt(Get(d, "company_c"))
    case LastActivityDate => Get(d, "last_activity_date_c")
  }

  /** The fields of `fs` whose input is defined, with their assigned values. */
  function FieldsOf(d: Obj, fs: set<DealField>, formatDate: Value -> Value, rawClose: bool): map<DealField, Value> {
    map f | f in fs && Defined(d, f) :: SentValue(d, f, formatDate, rawClose)
  }

  /** The fields `update` sends: every field whose input is defined, the close
      date as the formatter's result, which overwrites the raw value. */
  function UpdateFields(d: Obj, formatDate: Value -> Value): map<DealField, Value> {
    FieldsOf(d, AllDealFields, formatDate, false)
  }

  function UpdateRecord(id: Value, d: Obj, formatDate: Value -> Value): DealUpdate {
    DealUpdate(ParsedInt(id), UpdateFields(d, formatDate))
  }

  /** Every field is one `update` considers. */
  lemma AllFieldsCovered(f: DealField)
    ensures f in AllDealFields
  {
    match f
    case Name =>
    case Value =>
    case ExpectedCloseDate =>
    case Stage =>
    case Probability =>
    case Company =>
    case LastActivityDate =>
  }

  /** Each field is sent exactly when its input is defined, with its converted value. */
  lemma FieldSent(d: Obj, f: DealField, formatDate: Value -> Value)
    ensures SendsWhenDefined(UpdateFields(d, formatDate), d, f, SentValue(d, f, formatDate, false))
  {
    AllFieldsCovered(f);
  }

  /** `update` sends the parsed Id and exactly the fields whose input is not
      `undefined`. */
  lemma UpdateRecordKeys(id: Value, d: Obj, formatDate: Value -> Value)
    ensures UpdateRecord(id, d, formatDate).id == ParsedInt(id)
    ensures forall f :: f in UpdateRecord(id, d, formatDate).fields <==> Defined(d, f)
  {
    forall f ensures f in UpdateRecord(id, d, formatDate).fields <==> Defined(d, f) {
      FieldSent(d, f, formatDate);
    }
  }

  /** The text fields are sent as given, each exactly when its input is not `undefined`. */
  lemma UpdateRecordPlainFields(id: Value, d: Obj, formatDate: Value -> Value)
    ensures var r := UpdateRecord(id, d, formatDate).fields;
      && SendsWhenDefined(r, d, Name, Get(d, "Name"))
      && SendsWhenDefined(r, d, Stage, Get(d, "stage_c"))
      && SendsWhenDefined(r, d, LastActivityDate, Get(d, "last_activity_date_c"))
  {
    FieldSent(d, Name, formatDate);
    FieldSent(d, Stage, formatDate);
    FieldSent(d, LastActivityDate, formatDate);
  }

  /** The numeric fields are sent parsed, each exactly when its input is not `undefined`. */
  lemma UpdateRecordParsedFields(id: Value, d: Obj, formatDate: Value -> Value)
    ensures var r := UpdateRecord(id, d, formatDate).fields;
      && SendsWhenDefined(r, d, Value, ParsedFloat(Get(d, "value_c")))
      && SendsWhenDefined(r, d, Probability, ParsedInt(Get(d, "probability_percentage_c")))
      && SendsWhenDefined(r, d, Company, ParsedInt(Get(d, "company_c")))
  {
    FieldSent(d, Value, formatDate);
    FieldSent(d, Probability, formatDate);
    FieldSent(d, Company, formatDate);
  }

  /** The close date is sent exactly when defined, as the formatter's result. */
  lemma UpdateRecordCloseDate(id: Value, d: Obj, formatDate: Value -> Value)
    ensures SendsWhenDefined(UpdateRecord(id, d, formatDate).fields, d, ExpectedCloseDate,
                             formatDate(Get(d, "expected_close_date_c")))
  {
    FieldSent(d, ExpectedCloseDate, formatDate);
  }

  /** One more conditional assignment adds its field to the ones assigned so far. */
  lemma FieldsOfAdd(d: Obj, fs: set<DealField>, f: DealField, formatDate: Value -> Value, rawClose: bool)
    ensures var r := FieldsOf(d, fs, formatDate, rawClose);
      FieldsOf(d, fs + {f}, formatDate, rawClose) ==
        if Defined(d, f) then r[f := SentValue(d, f, formatDate, rawClose)] else r
  {
  }

  /** Assigning the formatted close date over the raw one. */
  lemma FormatCloseDate(d: Obj, fs: set<DealField>, formatDate: Value -> Value)
    requires ExpectedCloseDate in fs
    ensures var r := FieldsOf(d, fs, formatDate, true);
      FieldsOf(d, fs, formatDate, false) ==
        if Defined(d, ExpectedCloseDate) then r[ExpectedCloseDate := formatDate(Get(d, "expected_close_date_c"))] else r
  {
  }

  /** `if (dealData.f !== undefined) mappedData.f = ...` for a field `f` not
      assigned yet, with the value converted as `SentValue` says: the record
      built so far grows by `f` exactly when its input is defined. */
  method AssignIfDefined(fields: map<DealField, Value>, ghost done: set<DealField>, d: Obj,
                         f: DealField, formatDate: Value -> Value)
    returns (fields': map<DealField, Value>)
    requires fields == FieldsOf(d, done, formatDate, true)
    ensures fields' == FieldsOf(d, done + {f}, formatDate, true)
  {
    FieldsOfAdd(d, done, f, formatDate, true);
    fields' := fields;
    if Get(d, StorageKey(f)) != Undefined {
      fields' := fields'[f := SentValue(d, f, formatDate, true)];
    }
  }

  /** `update(id, dealData)`: starts from the parsed Id and adds one field at
      a time, each only when its input is not `undefined`; the close date is
      assigned a second time at the end. */
  method BuildUpdateRecord(id: Value, d: Obj, formatDate: Value -> Value) returns (r: DealUpdate)
    ensures r == UpdateRecord(id, d, formatDate)
  {
    var fields: map<DealField, Value> := map[];
    ghost var done: set<DealField> := {};
    assert fields == FieldsOf(d, done, formatDate, true);
    fields := AssignIfDefined(fields, done, d, Name, formatDate);
    done := done + {Name};
    fields := AssignIfDefined(fields, done, d, Value, formatDate);
    done := done + {Value};
    fields := AssignIfDefined(fields, done, d, ExpectedCloseDate, formatDate);
    done := done + {ExpectedCloseDate};
    fields := AssignIfDefined(fields, done, d, Stage, formatDate);
    done := done + {Stage};
    fields := AssignIfDefined(fields, done, d, Probability, formatDate);
    done := done + {Probability};
    fields := AssignIfDefined(fields, done, d, Company, formatDate);
    done := done + {Company};
    fields := AssignIfDefined(fields, done, d, LastActivityDate, formatDate);
    done := done + {LastActivityDate};
    assert done == AllDealFields;
    fields := AssignCloseDate(fields, d, formatDate);
    r := DealUpdate(ParsedInt(id), fields);
  }

  /** The final `if (dealData.expected_close_date_c !== undefined)` assignment,
      which replaces the raw close date by the formatter's result. */
  method AssignCloseDate(fields: map<DealField, Value>, d: Obj, formatDate: Value -> Value)
    returns (fields': map<DealField, Value>)
    requires fields == FieldsOf(d, AllDealFields, formatDate, true)
    ensures fields' == UpdateFields(d, formatDate)
  {
    FormatCloseDate(d, AllDealFields, formatDate);
    fields' := fields;
    if Get(d, "expected_close_date_c") != Undefined {
      fields' := fields'[ExpectedCloseDate := formatDate(Get(d, "expected_close_date_c"))];
    }
  }
}
