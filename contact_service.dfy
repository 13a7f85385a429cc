/** The contact service: the storage record built from the form data on
    create and update. Its replies are read by `RecordStore.ReadSaveReply`
    and `RecordStore.ReadDeleteReply`. */
module ContactService {
  import opened Text
  import opened Js

  /** The storage keys that are read through an alias. */
  const MappedKeys: set<string> :=
    {"company_c", "contact_person_c", "email_c", "phone_c", "industry_c", "notes_c"}

  /** The keys `create` adds to the mapped ones. */
  const CreateStampKeys: set<string> := {"Name", "last_contact_date_c", "created_at_c", "updated_at_c"}

  /** The keys `update` adds to the mapped ones. */
  const UpdateStampKeys: set<string> := {"Id", "Name", "updated_at_c"}

  /** `storage` holds `data.ui || data.storage`: the UI-facing value when it
      is truthy, the value under the storage key otherwise. */
  predicate TakesAlias(d: Obj, r: Obj, storage: string, ui: string) {
    storage in r && r[storage] == (if Truthy(Get(d, ui)) then Get(d, ui) else Get(d, storage))
  }

  /** Every mapped field follows its alias rule. */
  predicate MapsAliases(d: Obj, r: Obj) {
    && TakesAlias(d, r, "company_c", "company")
    && TakesAlias(d, r, "contact_person_c", "contactPerson")
    && TakesAlias(d, r, "email_c", "email")
    && TakesAlias(d, r, "phone_c", "phone")
    && TakesAlias(d, r, "industry_c", "industry")
    && TakesAlias(d, r, "notes_c", "notes")
  }

  /** The aliased part of `mappedData`, common to create and update. */
  function AliasFields(d: Obj): (r: Obj)
    ensures r.Keys == MappedKeys
    ensures MapsAliases(d, r)
  {
    map[
      "company_c" := Or(Get(d, "company"), Get(d, "company_c")),
      "contact_person_c" := Or(Get(d, "contactPerson"), Get(d, "contact_person_c")),
      "email_c" := Or(Get(d, "email"), Get(d, "email_c")),
      "phone_c" := Or(Get(d, "phone"), Get(d, "phone_c")),
      "industry_c" := Or(Get(d, "industry"), Get(d, "industry_c")),
      "notes_c" := Or(Get(d, "notes"), Get(d, "notes_c"))
    ]
  }

  /** The record `create(contactData)` sends, with `nowIso` the current
      instant as `toISOString` renders it: Name repeats the company, the
      last contact date is today's date part, both audit stamps are now. */
  function CreateRecord(d: Obj, nowIso: string): (r: Obj)
    ensures r.Keys == MappedKeys + CreateStampKeys
    ensures r["Name"] == r["company_c"]
    ensures MapsAliases(d, r)
    ensures r["last_contact_date_c"] == Str(DatePart(nowIso))
    ensures r["created_at_c"] == Str(nowIso) && r["updated_at_c"] == Str(nowIso)
  {
    var fields := AliasFields(d);
    assert MappedKeys !! CreateStampKeys;
    fields + map[
      "Name" := fields["company_c"],
      "last_contact_date_c" := Str(DatePart(nowIso)),
      "created_at_c" := Str(nowIso),
      "updated_at_c" := Str(nowIso)
    ]
  }

  /** The record `update(id, contactData)` sends: the same mapped fields and
      Name, the id through `parseInt`, and only the `updated_at_c` stamp. */
  function UpdateRecord(id: Value, d: Obj, nowIso: string): (r: Obj)
    ensures r.Keys == MappedKeys + UpdateStampKeys
    ensures "created_at_c" !in r && "last_contact_date_c" !in r
    ensures r["Id"] == ParsedInt(id)
    ensures r["Name"] == r["company_c"]
    ensures MapsAliases(d, r)
    ensures r["updated_at_c"] == Str(nowIso)
  {
    var fields := AliasFields(d);
    assert MappedKeys !! UpdateStampKeys;
    fields + map[
      "Id" := ParsedInt(id),
      "Name" := fields["company_c"],
      "updated_at_c" := Str(nowIso)
    ]
  }

  /** Create and update send the same value for every field they share. */
  lemma CreateUpdateAgree(id: Value, d: Obj, nowIso: string)
    ensures var c := CreateRecord(d, nowIso);
      var u := UpdateRecord(id, d, nowIso);
      forall k :: k in c && k in u ==> c[k] == u[k]
  {
    var c := CreateRecord(d, nowIso);
    var u := UpdateRecord(id, d, nowIso);
    forall k | k in c && k in u
      ensures c[k] == u[k]
    {
      assert k in MappedKeys || k == "Name" || k == "updated_at_c";
    }
  }
}
