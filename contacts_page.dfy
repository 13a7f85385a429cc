/** The contacts page: the search filter over the loaded contacts and the
    changes the page makes to its list when a contact is added, edited,
    deleted or edited inline. */
module ContactsPage {
  import opened Text
  import opened Js
  import opened RecordStore

  /** `a` is `b` with some entries left out, the rest in their order. */
  predicate SubsequenceOf(a: seq<Value>, b: seq<Value>)
    decreases |b|
  {
    a == [] || (b != [] && (if a[0] == b[0] then SubsequenceOf(a[1..], b[1..]) else SubsequenceOf(a, b[1..])))
  }

  // ---------------------------------------------------------------------------
  // filterContacts

  /** `searchTerm || globalSearch || ""`. */
  function EffectiveQuery(searchTerm: string, globalSearch: string): (q: string)
    ensures searchTerm != "" ==> q == searchTerm
    ensures searchTerm == "" ==> q == globalSearch
  {
    if searchTerm != "" then searchTerm else globalSearch
  }

  /** `v?.toLowerCase().includes(needle)` when `fold`, `v?.includes(needle)`
      otherwise: a missing value is simply no match; a value that is neither
      missing nor a string has no such method and the call throws (`None`). */
  function FieldIncludes(v: Value, needle: string, fold: bool): Option<bool> {
    match v
    case Undefined => Some(false)
    case Null => Some(false)
    case Str(s) => Some(Contains(if fold then Lower(s) else s, needle))
    case _ => None
  }

  /** The filter callback, evaluated as JavaScript does: company, contact
      person and email compared lowercased, the phone with the raw query,
      stopping at the first match. Reading a field of a `null` or `undefined`
      entry throws. */
  function ContactMatch(c: Value, q: string): Option<bool> {
    if c == Null || c == Undefined then None
    else
      var lq := Lower(q);
      match FieldIncludes(Prop(c, "company_c"), lq, true)
      case None => None
      case Some(true) => Some(true)
      case Some(false) =>
        match FieldIncludes(Prop(c, "contact_person_c"), lq, true)
        case None => None
        case Some(true) => Some(true)
        case Some(false) =>
          match FieldIncludes(Prop(c, "email_c"), lq, true)
          case None => None
          case Some(true) => Some(true)
          case Some(false) => FieldIncludes(Prop(c, "phone_c"), q, false)
  }

  /** A text field that is a string or missing. */
  predicate TextOrMissing(v: Value) {
    v.Str? || v == Undefined || v == Null
  }

  /** A contact the search can read: a record whose searched fields are text or missing. */
  predicate Searchable(c: Value) {
    && c.Object?
    && TextOrMissing(Prop(c, "company_c")) && TextOrMissing(Prop(c, "contact_person_c"))
    && TextOrMissing(Prop(c, "email_c")) && TextOrMissing(Prop(c, "phone_c"))
  }

  /** `Lower(field)` contains `Lower(q)`, for a field that may be missing. */
  predicate FoldedHit(v: Value, q: string) {
    v.Str? && Contains(Lower(v.s), Lower(q))
  }

  /** The search criterion stated directly: the lowercased query occurs in
      the lowercased company, contact person or email, or the raw query
      occurs in the phone. */
  predicate Matches(c: Value, q: string) {
    || FoldedHit(Prop(c, "company_c"), q)
    || FoldedHit(Prop(c, "contact_person_c"), q)
    || FoldedHit(Prop(c, "email_c"), q)
    || (Prop(c, "phone_c").Str? && Contains(Prop(c, "phone_c").s, q))
  }

  /** On a searchable contact the callback never throws and keeps the contact
      exactly when it matches; a missing field only fails to match. */
  lemma ContactMatchMeaning(c: Value, q: string)
    requires Searchable(c)
    ensures ContactMatch(c, q) == Some(Matches(c, q))
  {
  }

  /** `contacts.filter(callback)`: `None` when the callback throws on some entry. */
  function SearchAll(cs: seq<Value>, q: string): (r: Option<seq<Value>>)
    ensures r.None? <==> exists i :: 0 <= i < |cs| && ContactMatch(cs[i], q).None?
    ensures r.Some? ==> SubsequenceOf(r.value, cs)
    ensures r.Some? ==> forall c :: c in r.value <==> c in cs && ContactMatch(c, q) == Some(true)
    ensures r.Some? ==> forall c ::
      multiset(r.value)[c] == if ContactMatch(c, q) == Some(true) then multiset(cs)[c] else 0
  {
    if cs == [] then Some([])
    else
      var m := ContactMatch(cs[0], q);
      var rest := SearchAll(cs[1..], q);
      assert cs == [cs[0]] + cs[1..];
      if m.None? || rest.None? then
        assert rest.None? ==> exists i :: 0 <= i < |cs[1..]| && ContactMatch(cs[1..][i], q).None?;
        None
      else if m.value then
        Some([cs[0]] + rest.value)
      else
        assert rest.value == [] || rest.value[0] != cs[0] by {
          if rest.value != [] { assert rest.value[0] in rest.value; }
        }
        Some(rest.value)
  }

  /** `filterContacts`: the whole list when the effective query is empty,
      otherwise the entries the callback keeps. */
  function FilterContacts(cs: seq<Value>, searchTerm: string, globalSearch: string): (r: Option<seq<Value>>)
    ensures EffectiveQuery(searchTerm, globalSearch) == "" ==> r == Some(cs)
    ensures r.Some? ==> SubsequenceOf(r.value, cs)
  {
    var q := EffectiveQuery(searchTerm, globalSearch);
    if q == "" then
      assert SubsequenceOf(cs, cs) by { SubsequenceOfSelf(cs); }
      Some(cs)
    else SearchAll(cs, q)
  }

  lemma {:induction false} SubsequenceOfSelf(cs: seq<Value>)
    ensures SubsequenceOf(cs, cs)
  {
    if cs != [] {
      SubsequenceOfSelf(cs[1..]);
    }
  }

  /** When every contact is searchable, a non-empty query never throws and
      keeps exactly the contacts that match it. */
  lemma FilterSearchable(cs: seq<Value>, searchTerm: string, globalSearch: string)
    requires forall i :: 0 <= i < |cs| ==> Searchable(cs[i])
    requires EffectiveQuery(searchTerm, globalSearch) != ""
    ensures var r := FilterContacts(cs, searchTerm, globalSearch);
      var q := EffectiveQuery(searchTerm, globalSearch);
      && r.Some?
      && (forall c :: c in r.value <==> c in cs && Matches(c, q))
      && (forall c :: multiset(r.value)[c] == if Matches(c, q) then multiset(cs)[c] else 0)
  {
    var q := EffectiveQuery(searchTerm, globalSearch);
    forall i | 0 <= i < |cs|
      ensures ContactMatch(cs[i], q) == Some(Matches(cs[i], q))
    {
      ContactMatchMeaning(cs[i], q);
    }
    var r := SearchAll(cs, q).value;
    forall c ensures multiset(r)[c] == if Matches(c, q) then multiset(cs)[c] else 0 {
      if c in cs {
        var i :| 0 <= i < |cs| && cs[i] == c;
        assert ContactMatch(cs[i], q) == Some(Matches(cs[i], q));
      }
    }
  }

  // ---------------------------------------------------------------------------
  // List updates

  /** `c.Id === id` for a list entry. */
  predicate HasId(c: Value, id: Value) {
    StrictEquals(Prop(c, "Id"), id)
  }

  /** `cs.map(c => c.Id === id ? u : c)`. */
  function ReplaceById(cs: seq<Value>, id: Value, u: Value): (r: seq<Value>)
    ensures |r| == |cs|
    ensures forall i :: 0 <= i < |cs| ==> r[i] == (if HasId(cs[i], id) then u else cs[i])
  {
    if cs == [] then [] else [if HasId(cs[0], id) then u else cs[0]] + ReplaceById(cs[1..], id, u)
  }

  /** `cs.filter(c => c.Id !== id)`. */
  function RemoveById(cs: seq<Value>, id: Value): (r: seq<Value>)
    ensures SubsequenceOf(r, cs)
    ensures forall c :: c in r <==> c in cs && !HasId(c, id)
    ensures forall c :: multiset(r)[c] == if HasId(c, id) then 0 else multiset(cs)[c]
  {
    assert cs != [] ==> cs == [cs[0]] + cs[1..];
    if cs == [] then []
    else if HasId(cs[0], id) then
      var rest := RemoveById(cs[1..], id);
      assert rest == [] || rest[0] != cs[0] by {
        if rest != [] { assert rest[0] in rest; }
      }
      rest
    else [cs[0]] + RemoveById(cs[1..], id)
  }

  /** Replacing with the entry already there changes nothing. */
  lemma {:induction false} ReplaceByIdSame(cs: seq<Value>, id: Value, u: Value)
    requires forall i :: 0 <= i < |cs| && HasId(cs[i], id) ==> cs[i] == u
    ensures ReplaceById(cs, id, u) == cs
  {
    var r := ReplaceById(cs, id, u);
    assert forall i :: 0 <= i < |cs| ==> r[i] == cs[i];
  }

  /** After a removal, replacing or removing the same id again has no effect. */
  lemma RemoveThenReplace(cs: seq<Value>, id: Value, u: Value)
    ensures ReplaceById(RemoveById(cs, id), id, u) == RemoveById(cs, id)
    ensures RemoveById(RemoveById(cs, id), id) == RemoveById(cs, id)
  {
    var r := RemoveById(cs, id);
    forall i | 0 <= i < |r| ensures !HasId(r[i], id) {
      assert r[i] in r;
    }
    ReplaceByIdSame(r, id, u);
    RemoveNoneLeft(r, id);
  }

  lemma {:induction false} RemoveNoneLeft(cs: seq<Value>, id: Value)
    requires forall i :: 0 <= i < |cs| ==> !HasId(cs[i], id)
    ensures RemoveById(cs, id) == cs
  {
    if cs != [] {
      RemoveNoneLeft(cs[1..], id);
    }
  }

  /** The page state the handlers change. `globalSearch` comes from the layout. */
  class Page {
    var contacts: seq<Value>
    var searchTerm: string
    var showForm: bool
    var showDetail: bool
    var selectedContact: Value
    var editingContact: Value

    constructor ()
      ensures contacts == [] && searchTerm == "" && !showForm && !showDetail
      ensures selectedContact == Null && editingContact == Null
    {
      contacts := [];
      searchTerm := "";
      showForm := false;
      showDetail := false;
      selectedContact := Null;
      editingContact := Null;
    }

    /** The list the table shows. */
    function Filtered(globalSearch: string): Option<seq<Value>>
      reads this
    {
      FilterContacts(contacts, searchTerm, globalSearch)
    }

    /** `handleAddContact`, given what `contactService.create` produced: a
        returned contact is put first and the form closes; an error is
        rethrown and nothing changes. */
    method AddContact(created: Outcome<Value>) returns (failed: bool)
      modifies this
      ensures failed <==> created.Thrown?
      ensures created.Returned? ==>
        && contacts == [created.value] + old(contacts)
        && !showForm && editingContact == Null
        && showDetail == old(showDetail) && selectedContact == old(selectedContact)
        && searchTerm == old(searchTerm)
      ensures created.Thrown? ==> unchanged(this)
    {
      if created.Thrown? {
        return true;
      }
      contacts := [created.value] + contacts;
      showForm := false;
      editingContact := Null;
      return false;
    }

    /** `handleEditContact`, given what `contactService.update` produced for
        the contact being edited: every entry with its Id is replaced by the
        returned contact, which also becomes the selected one. Reading the Id
        of a missing editing contact throws, as does the service. */
    method EditContact(updated: Outcome<Value>) returns (failed: bool)
      modifies this
      ensures failed <==> updated.Thrown? || old(editingContact) == Null || old(editingContact) == Undefined
      ensures !failed ==>
        && contacts == ReplaceById(old(contacts), Prop(old(editingContact), "Id"), updated.value)
        && !showForm && editingContact == Null && selectedContact == updated.value
        && showDetail == old(showDetail) && searchTerm == old(searchTerm)
      ensures failed ==> unchanged(this)
    {
      if editingContact == Null || editingContact == Undefined || updated.Thrown? {
        return true;
      }
      contacts := ReplaceById(contacts, Prop(editingContact, "Id"), updated.value);
      showForm := false;
      editingContact := Null;
      selectedContact := updated.value;
      return false;
    }

    /** `handleDeleteContact`: only when the user confirmed and the service
        did not throw are the entries with that Id removed; the `false` the
        service returns when nothing was deleted does not stop the removal. */
    method DeleteContact(id: Value, confirmed: bool, deleted: Outcome<Value>)
      modifies this
      ensures confirmed && deleted.Returned? ==> contacts == RemoveById(old(contacts), id)
      ensures !(confirmed && deleted.Returned?) ==> contacts == old(contacts)
      ensures showForm == old(showForm) && showDetail == old(showDetail)
      ensures selectedContact == old(selectedContact) && editingContact == old(editingContact)
      ensures searchTerm == old(searchTerm)
    {
      if confirmed && deleted.Returned? {
        contacts := RemoveById(contacts, id);
      }
    }

    /** `handleEditClick(contact, mode)`: an inline edit writes the contact
        back over every entry with its Id; otherwise the edit form opens on it. */
    method EditClick(contact: Value, inline: bool)
      modifies this
      ensures inline ==>
        && contacts == ReplaceById(old(contacts), Prop(contact, "Id"), contact)
        && showForm == old(showForm) && showDetail == old(showDetail)
        && editingContact == old(editingContact)
      ensures !inline ==>
        && contacts == old(contacts)
        && editingContact == contact && showForm && !showDetail
      ensures selectedContact == old(selectedContact) && searchTerm == old(searchTerm)
    {
      if inline {
        contacts := ReplaceById(contacts, Prop(contact, "Id"), contact);
      } else {
        editingContact := contact;
        showForm := true;
        showDetail := false;
      }
    }
  }
}
