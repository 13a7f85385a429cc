/** The contact table: the sort state the column headers drive and the
    sorted copy of the contacts the table shows. */
module ContactTable {
  import opened Text
  import opened Js

  datatype Direction = Asc | Desc

  function Flip(d: Direction): Direction {
    if d == Asc then Desc else Asc
  }

  /** The state after choosing column `f`: the same column flips the
      direction, another column is selected ascending. */
  function NextSort(field: string, dir: Direction, f: string): (r: (string, Direction))
    ensures r.0 == f
    ensures r.1 == (if field == f then Flip(dir) else Asc)
  {
    if field == f then (field, Flip(dir)) else (f, Asc)
  }

  /** Choosing the current column twice gives back the direction it had;
      choosing a column twice from another column ends descending on it. */
  lemma NextSortTwice(field: string, dir: Direction, f: string)
    ensures var s := NextSort(field, dir, f);
      var t := NextSort(s.0, s.1, f);
      && (field == f ==> t == (field, dir))
      && (field != f ==> t == (f, Desc))
  {
  }

  /** `fieldMap[f] || f`: the storage key of a column. */
  function DbField(f: string): (k: string)
    ensures f == "company" ==> k == "company_c"
    ensures f == "contactPerson" ==> k == "contact_person_c"
    ensures f == "email" ==> k == "email_c"
    ensures f == "phone" ==> k == "phone_c"
    ensures f == "lastContactDate" ==> k == "last_contact_date_c"
    ensures f == "industry" ==> k == "industry_c"
    ensures f == "notes" ==> k == "notes_c"
    ensures f !in {"company", "contactPerson", "email", "phone", "lastContactDate", "industry", "notes"} ==> k == f
  {
    match f
    case "company" => "company_c"
    case "contactPerson" => "contact_person_c"
    case "email" => "email_c"
    case "phone" => "phone_c"
    case "lastContactDate" => "last_contact_date_c"
    case "industry" => "industry_c"
    case "notes" => "notes_c"
    case _ => f
  }

  /** What the comparator compares: lowercased text, a number (a date as its
      time value), or a value for which both `<` and `>` are false. */
  datatype Key = KText(t: string) | KNum(n: real) | KNone

  /** `new Date(v)` compared through its time value; `dateOf` parses a date
      string, `None` for an invalid date. */
  function DateKey(v: Value, dateOf: string -> Option<int>): Key {
    match v
    case Str(s) => (match dateOf(s) case Some(t) => KNum(t as real) case None => KNone)
    case Null => KNum(0.0)
    case _ => KNone
  }

  /** The key of one contact for column `field`. */
  function KeyOf(c: Value, field: string, dateOf: string -> Option<int>): Key {
    var v := Prop(c, DbField(field));
    if field == "lastContactDate" then DateKey(v, dateOf)
    else match v
      case Str(s) => KText(Lower(s))
      case Num(n) => KNum(n)
      case _ => KNone
  }

  /** `<` on strings: code unit by code unit, a proper prefix first. */
  predicate StrLess(a: string, b: string)
    decreases |a|
  {
    if a == [] then b != [] else b != [] && (a[0] < b[0] || (a[0] == b[0] && StrLess(a[1..], b[1..])))
  }

  lemma {:induction false} StrLessIrreflexive(a: string)
    ensures !StrLess(a, a)
  {
    if a != [] {
      StrLessIrreflexive(a[1..]);
    }
  }

  lemma {:induction false} StrLessTransitive(a: string, b: string, c: string)
    requires StrLess(a, b) && StrLess(b, c)
    ensures StrLess(a, c)
  {
    if a != [] && a[0] == b[0] && b[0] == c[0] {
      StrLessTransitive(a[1..], b[1..], c[1..]);
    }
  }

  lemma {:induction false} StrLessTotal(a: string, b: string)
    requires a != b
    ensures StrLess(a, b) || StrLess(b, a)
  {
    if a != [] && b != [] && a[0] == b[0] {
      assert a == [a[0]] + a[1..] && b == [b[0]] + b[1..];
      StrLessTotal(a[1..], b[1..]);
    }
  }

  /** `a < b` on keys; keys of different kinds are never ordered. */
  predicate KeyLess(a: Key, b: Key) {
    match (a, b)
    case (KText(s), KText(t)) => StrLess(s, t)
    case (KNum(x), KNum(y)) => x < y
    case _ => false
  }

  /** The sort order of the state: whether the comparator puts `a` before `b`. */
  datatype Order = Order(field: string, dir: Direction, dateOf: string -> Option<int>)

  predicate Precedes(a: Value, b: Value, o: Order) {
    var ka := KeyOf(a, o.field, o.dateOf);
    var kb := KeyOf(b, o.field, o.dateOf);
    if o.dir == Asc then KeyLess(ka, kb) else KeyLess(kb, ka)
  }

  /** The comparator: -1 when `a` goes first, 1 when `b` does, 0 otherwise. */
  function Compare(a: Value, b: Value, o: Order): (r: int)
    ensures r == -1 <==> Precedes(a, b, o)
    ensures r == 1 <==> Precedes(b, a, o)
    ensures r == 0 <==> !Precedes(a, b, o) && !Precedes(b, a, o)
  {
    KeyAsymmetric(a, b, o);
    if Precedes(a, b, o) then -1 else if Precedes(b, a, o) then 1 else 0
  }

  lemma KeyAsymmetric(a: Value, b: Value, o: Order)
    ensures !(Precedes(a, b, o) && Precedes(b, a, o))
  {
    var ka := KeyOf(a, o.field, o.dateOf);
    var kb := KeyOf(b, o.field, o.dateOf);
    if ka.KText? && kb.KText? && StrLess(ka.t, kb.t) && StrLess(kb.t, ka.t) {
      StrLessTransitive(ka.t, kb.t, ka.t);
      StrLessIrreflexive(ka.t);
    }
  }

  /** Insert `x` after the entries that go strictly before it. */
  function Insert(x: Value, s: seq<Value>, o: Order): (r: seq<Value>)
    ensures multiset(r) == multiset(s) + multiset{x}
  {
    if s == [] then [x]
    else if Precedes(s[0], x, o) then
      assert s == [s[0]] + s[1..];
      [s[0]] + Insert(x, s[1..], o)
    else [x] + s
  }

  /** `[...contacts].sort(compare)`: a stable insertion sort of a copy. */
  function SortContacts(cs: seq<Value>, o: Order): (r: seq<Value>)
    ensures multiset(r) == multiset(cs)
  {
    if cs == [] then []
    else
      assert cs == [cs[0]] + cs[1..];
      Insert(cs[0], SortContacts(cs[1..], o), o)
  }

  /** No entry is followed by one the comparator puts before it: keys are
      non-decreasing for `Asc` and non-increasing for `Desc`. */
  predicate Sorted(r: seq<Value>, o: Order) {
    forall i, j :: 0 <= i < j < |r| ==> !Precedes(r[j], r[i], o)
  }

  /** The keys of the column are all text or all numbers (valid dates). */
  predicate Comparable(cs: seq<Value>, o: Order) {
    || (forall c :: c in cs ==> KeyOf(c, o.field, o.dateOf).KText?)
    || (forall c :: c in cs ==> KeyOf(c, o.field, o.dateOf).KNum?)
  }

  /** If `x < z` then every `y` is above `x` or below `z`. */
  lemma StrLessSplit(x: string, y: string, z: string)
    requires StrLess(x, z)
    ensures StrLess(x, y) || StrLess(y, z)
  {
    if x == y {
    } else if StrLess(y, x) {
      StrLessTransitive(y, x, z);
    } else {
      StrLessTotal(x, y);
    }
  }

  /** Among keys of one kind, if `x < z` then every `y` is above `x` or below `z`. */
  lemma KeyLessSplit(x: Key, y: Key, z: Key)
    requires (x.KText? && y.KText? && z.KText?) || (x.KNum? && y.KNum? && z.KNum?)
    requires KeyLess(x, z)
    ensures KeyLess(x, y) || KeyLess(y, z)
  {
    if x.KText? {
      StrLessSplit(x.t, y.t, z.t);
    }
  }

  /** Among keys of one kind, if `a` goes before `c` then every `b` goes
      after `a` or before `c`. */
  lemma PrecedesSplit(a: Value, b: Value, c: Value, o: Order)
    requires var ka := KeyOf(a, o.field, o.dateOf);
      var kb := KeyOf(b, o.field, o.dateOf);
      var kc := KeyOf(c, o.field, o.dateOf);
      (ka.KText? && kb.KText? && kc.KText?) || (ka.KNum? && kb.KNum? && kc.KNum?)
    requires Precedes(a, c, o)
    ensures Precedes(a, b, o) || Precedes(b, c, o)
  {
    var ka := KeyOf(a, o.field, o.dateOf);
    var kb := KeyOf(b, o.field, o.dateOf);
    var kc := KeyOf(c, o.field, o.dateOf);
    if o.dir == Asc {
      KeyLessSplit(ka, kb, kc);
    } else {
      KeyLessSplit(kc, kb, ka);
    }
  }

  lemma {:induction false} InsertSorted(x: Value, s: seq<Value>, o: Order)
    requires Sorted(s, o)
    requires Comparable([x] + s, o)
    ensures Sorted(Insert(x, s, o), o)
  {
    var r := Insert(x, s, o);
    var all := [x] + s;
    if s == [] {
    } else if Precedes(s[0], x, o) {
      var rest := Insert(x, s[1..], o);
      assert Comparable([x] + s[1..], o) by {
        forall c | c in [x] + s[1..] ensures c in all { }
      }
      InsertSorted(x, s[1..], o);
      assert r == [s[0]] + rest;
      forall j | 0 < j < |r| ensures !Precedes(r[j], r[0], o) {
        assert r[j] in multiset(rest);
        if r[j] == x {
          KeyAsymmetric(x, s[0], o);
        } else {
          assert r[j] in multiset(s[1..]);
          var k :| 0 <= k < |s[1..]| && s[1..][k] == r[j];
          assert s[k + 1] == r[j];
        }
      }
    } else {
      assert r == [x] + s;
      forall j | 0 < j < |r| ensures !Precedes(r[j], r[0], o) {
        if Precedes(r[j], x, o) {
          assert r[j] == s[j - 1];
          assert r[j] in all && s[0] in all;
          PrecedesSplit(s[j - 1], s[0], x, o);
        }
      }
    }
  }

  lemma {:induction false} SortContactsSorted(cs: seq<Value>, o: Order)
    requires Comparable(cs, o)
    ensures Sorted(SortContacts(cs, o), o)
  {
    if cs != [] {
      var tail := SortContacts(cs[1..], o);
      assert Comparable(cs[1..], o) by {
        forall c | c in cs[1..] ensures c in cs { }
      }
      SortContactsSorted(cs[1..], o);
      assert Comparable([cs[0]] + tail, o) by {
        forall c | c in [cs[0]] + tail ensures c in cs {
          if c != cs[0] {
            assert c in multiset(tail);
          }
        }
      }
      InsertSorted(cs[0], tail, o);
    }
  }

  /** The sort state of the table. */
  class SortState {
    var sortField: string
    var sortDirection: Direction

    constructor ()
      ensures sortField == "company" && sortDirection == Asc
    {
      sortField := "company";
      sortDirection := Asc;
    }

    /** `handleSort(field)`. */
    method HandleSort(f: string)
      modifies this
      ensures (sortField, sortDirection) == NextSort(old(sortField), old(sortDirection), f)
    {
      if sortField == f {
        sortDirection := if sortDirection == Asc then Desc else Asc;
      } else {
        sortField := f;
        sortDirection := Asc;
      }
    }

    /** `sortedContacts`: the contacts the table shows, in the current order. */
    function SortedContacts(contacts: seq<Value>, dateOf: string -> Option<int>): (r: seq<Value>)
      reads this
      ensures multiset(r) == multiset(contacts)
      ensures Comparable(contacts, Order(sortField, sortDirection, dateOf)) ==>
        Sorted(r, Order(sortField, sortDirection, dateOf))
    {
      var o := Order(sortField, sortDirection, dateOf);
      if Comparable(contacts, o) then
        SortContactsSorted(contacts, o);
        SortContacts(contacts, o)
      else SortContacts(contacts, o)
    }
  }
}
