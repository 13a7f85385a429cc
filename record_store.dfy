/** The record store's request parameters and responses, as the services see
    them (the remote client itself is not modelled: its replies are inputs),
    and the way the contact and deal services read a reply. */
module RecordStore {
  import opened Js

  datatype Operator = EqualTo | GreaterThan | ExactMatch

  /** One `where` entry: `{FieldName, Operator, SubOperator?, Values}`. */
  datatype Condition = Condition(fieldName: string, operator: Operator, subOperator: Option<string>, values: seq<Value>)

  datatype SortType = Asc | Desc

  /** One `orderBy` entry: `{fieldName, sorttype}`. */
  datatype OrderBy = OrderBy(fieldName: string, sortType: SortType)

  /** `pagingInfo: {limit, offset}`. */
  datatype Paging = Paging(limit: nat, offset: nat)

  /** The parameters of `fetchRecords`; `where` and `pagingInfo` may be absent. */
  datatype FetchParams = FetchParams(fields: seq<string>, where: Option<seq<Condition>>, orderBy: seq<OrderBy>, paging: Option<Paging>)

  /** One entry of `response.results`: `{success, data?, message?}`. */
  datatype RecordResult = RecordResult(success: bool, data: Value, message: Value)

  /** What a client call produces: a reply `{success, message?, data?, results?}`,
      or an exception thrown by the client itself (`error.response.data.message`). */
  datatype Response =
    | Reply(success: bool, message: Value, data: Option<seq<Obj>>, results: Option<seq<RecordResult>>)
    | TransportError(message: Value)

  /** A service call either returns a value or throws an error carrying a message. */
  datatype Outcome<T> = Returned(value: T) | Thrown(message: Value)

  /** `EqualTo` on one field with a single value. */
  function Equal(field: string, v: Value): Condition {
    Condition(field, EqualTo, None, [v])
  }

  // ---------------------------------------------------------------------------
  // Reading `response.results`

  /** Some entry of `rs` succeeded: `rs.some(r => r.success)`. */
  predicate SomeSucceeded(rs: seq<RecordResult>) {
    exists i :: 0 <= i < |rs| && rs[i].success
  }

  /** `i` is the first entry of `rs` that succeeded. */
  predicate FirstSuccessAt(rs: seq<RecordResult>, i: int) {
    0 <= i < |rs| && rs[i].success && forall j :: 0 <= j < i ==> !rs[j].success
  }

  /** `rs.filter(r => r.success)`. */
  function Successful(rs: seq<RecordResult>): (r: seq<RecordResult>)
    ensures |r| <= |rs|
    ensures forall x :: x in r <==> x in rs && x.success
  {
    if rs == [] then []
    else if rs[0].success then [rs[0]] + Successful(rs[1..])
    else Successful(rs[1..])
  }

  /** `rs.filter(r => !r.success)`. */
  function Failed(rs: seq<RecordResult>): (r: seq<RecordResult>)
    ensures |r| <= |rs|
    ensures forall x :: x in r <==> x in rs && !x.success
  {
    if rs == [] then []
    else if !rs[0].success then [rs[0]] + Failed(rs[1..])
    else Failed(rs[1..])
  }

  /** The filtered list is non-empty exactly when some entry succeeded, and
      its head is the first entry that did. */
  lemma {:induction false} SuccessfulHead(rs: seq<RecordResult>)
    ensures |Successful(rs)| > 0 <==> SomeSucceeded(rs)
    ensures |Successful(rs)| > 0 ==> exists i :: FirstSuccessAt(rs, i) && Successful(rs)[0] == rs[i]
  {
    if rs != [] {
      SuccessfulHead(rs[1..]);
      if !rs[0].success && |Successful(rs[1..])| > 0 {
        var i :| FirstSuccessAt(rs[1..], i) && Successful(rs[1..])[0] == rs[1..][i];
        assert FirstSuccessAt(rs, i + 1);
      }
      if SomeSucceeded(rs) && !rs[0].success {
        var i :| 0 <= i < |rs| && rs[i].success;
        assert rs[1..][i - 1].success;
      }
      if rs[0].success {
        assert FirstSuccessAt(rs, 0);
      }
    }
  }

  /** `failed.forEach(r => { if (r.message) throw new Error(r.message) })`:
      the message of the first entry whose message is truthy. */
  function FirstMessage(failed: seq<RecordResult>): (m: Option<Value>)
    ensures m.Some? ==> Truthy(m.value)
  {
    if failed == [] then None
    else if Truthy(failed[0].message) then Some(failed[0].message)
    else FirstMessage(failed[1..])
  }

  /** A failed entry carries a message, so reading the reply throws. */
  predicate FailureWithMessage(rs: seq<RecordResult>) {
    exists i :: 0 <= i < |rs| && !rs[i].success && Truthy(rs[i].message)
  }

  /** `i` is the first failed entry of `rs` that carries a message. */
  predicate FirstFailureMessageAt(rs: seq<RecordResult>, i: int) {
    && 0 <= i < |rs| && !rs[i].success && Truthy(rs[i].message)
    && forall j :: 0 <= j < i && !rs[j].success ==> !Truthy(rs[j].message)
  }

  /** How the contact and deal services read the reply to `createRecord` or
      `updateRecord`: a request-level failure throws its message; otherwise
      the first failed entry that has a message throws it, even when another
      entry succeeded; otherwise the data of the first successful entry is
      returned, or `null` when none succeeded. A reply without `results`
      falls off the end of the method and returns `undefined`. */
  function ReadSaveReply(resp: Response): (r: Outcome<Value>)
    ensures resp.TransportError? ==> r == Thrown(resp.message)
    ensures resp.Reply? && !resp.success ==> r == Thrown(resp.message)
    ensures resp.Reply? && resp.success && resp.results.None? ==> r == Returned(Undefined)
    ensures resp.Reply? && resp.success && resp.results.Some? ==>
      var rs := resp.results.value;
      && (r.Thrown? <==> FailureWithMessage(rs))
      && (r.Thrown? ==> exists i :: FirstFailureMessageAt(rs, i) && r.message == rs[i].message)
      && (r.Returned? && !SomeSucceeded(rs) ==> r.value == Null)
      && (r.Returned? && SomeSucceeded(rs) ==> exists i :: FirstSuccessAt(rs, i) && r.value == rs[i].data)
  {
    match resp
    case TransportError(m) => Thrown(m)
    case Reply(success, message, _, results) =>
      if !success then Thrown(message)
      else if results.None? then Returned(Undefined)
      else
        var rs := results.value;
        var thrown := FirstMessage(Failed(rs));
        FailedMessages(rs);
        SuccessfulHead(rs);
        if thrown.Some? then Thrown(thrown.value)
        else
          var ok := Successful(rs);
          if |ok| > 0 then Returned(ok[0].data) else Returned(Null)
  }

  /** The first failed entry with a message, seen through `Failed`, is the
      first entry of `rs` that failed with a message. */
  lemma {:induction false} FailedMessages(rs: seq<RecordResult>)
    ensures var m := FirstMessage(Failed(rs));
      && (m.Some? <==> FailureWithMessage(rs))
      && (m.Some? ==> exists i :: FirstFailureMessageAt(rs, i) && m.value == rs[i].message)
  {
    if rs != [] {
      FailedMessages(rs[1..]);
      var m := FirstMessage(Failed(rs));
      if !rs[0].success && Truthy(rs[0].message) {
        assert Failed(rs)[0] == rs[0];
        assert FirstFailureMessageAt(rs, 0);
      } else {
        assert m == FirstMessage(Failed(rs[1..]));
        if m.Some? {
          var i :| FirstFailureMessageAt(rs[1..], i) && m.value == rs[1..][i].message;
          assert !rs[i + 1].success && m.value == rs[i + 1].message;
          forall j | 0 <= j < i + 1 && !rs[j].success ensures !Truthy(rs[j].message) {
            if j > 0 { assert rs[j] == rs[1..][j - 1]; }
          }
          assert FirstFailureMessageAt(rs, i + 1);
        }
        if FailureWithMessage(rs) {
          var i :| 0 <= i < |rs| && !rs[i].success && Truthy(rs[i].message);
          assert i > 0;
          assert !rs[1..][i - 1].success && Truthy(rs[1..][i - 1].message);
        }
      }
    }
  }

  /** How the contact and deal services read the reply to `deleteRecord`:
      the same throwing rules as for a save, then `true` exactly when some
      entry succeeded (`results.some(r => r.success)`). */
  function ReadDeleteReply(resp: Response): (r: Outcome<Value>)
    ensures resp.TransportError? ==> r == Thrown(resp.message)
    ensures resp.Reply? && !resp.success ==> r == Thrown(resp.message)
    ensures resp.Reply? && resp.success && resp.results.None? ==> r == Returned(Undefined)
    ensures resp.Reply? && resp.success && resp.results.Some? ==>
      var rs := resp.results.value;
      && (r.Thrown? <==> FailureWithMessage(rs))
      && (r.Thrown? ==> exists i :: FirstFailureMessageAt(rs, i) && r.message == rs[i].message)
      && (r.Returned? ==> r.value == Bool(SomeSucceeded(rs)))
  {
    match resp
    case TransportError(m) => Thrown(m)
    case Reply(success, message, _, results) =>
      if !success then Thrown(message)
      else if results.None? then Returned(Undefined)
      else
        var rs := results.value;
        var thrown := FirstMessage(Failed(rs));
        FailedMessages(rs);
        SuccessfulHead(rs);
        if thrown.Some? then Thrown(thrown.value)
        else Returned(Bool(|Successful(rs)| > 0))
  }
}
