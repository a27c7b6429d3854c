/** The payments table (backend/database/payment.py over the record of backend/models/payment.py):
    create, list by student, update the status of, and delete payment records. The database
    session is an in-memory table of rows in insertion order. */
module PaymentDb {
  import opened Wrappers

  /** One row of `payments`. The database assigns `id`; here it is the table's next serial
      number. */
  datatype Payment = Payment(id: nat, studentId: string, amount: real, status: string, transactionId: string)

  /** The rows of `student_id`, in table order. */
  function ByStudent(rows: seq<Payment>, studentId: string): (r: seq<Payment>)
    ensures forall p :: p in r <==> p in rows && p.studentId == studentId
    ensures |r| <= |rows|
    decreases |rows|
  {
    if |rows| == 0 then []
    else if rows[0].studentId == studentId then [rows[0]] + ByStudent(rows[1..], studentId)
    else ByStudent(rows[1..], studentId)
  }

  /** The position of the first row with `transactionId` (`.filter(...).first()`). */
  function FirstMatch(rows: seq<Payment>, transactionId: string): (r: Option<nat>)
    ensures r.Some? ==> r.value < |rows| && rows[r.value].transactionId == transactionId
    ensures r.Some? ==> forall k :: 0 <= k < r.value ==> rows[k].transactionId != transactionId
    ensures r.None? <==> forall k :: 0 <= k < |rows| ==> rows[k].transactionId != transactionId
    decreases |rows|
  {
    if |rows| == 0 then None
    else if rows[0].transactionId == transactionId then Some(0)
    else
      match FirstMatch(rows[1..], transactionId)
      case None => None
      case Some(i) => Some(i + 1)
  }

  /** The rows after `update_payment_status`, and the row it returns. */
  function Updated(rows: seq<Payment>, transactionId: string, status: string): (r: (seq<Payment>, Option<Payment>))
    ensures |r.0| == |rows|
    ensures forall k :: 0 <= k < |rows| ==> r.0[k] == rows[k] || r.0[k] == rows[k].(status := status)
    ensures r.1.None? <==> forall k :: 0 <= k < |rows| ==> rows[k].transactionId != transactionId
    ensures r.1.None? ==> r.0 == rows
    ensures r.1.Some? ==> r.1.value in r.0 && r.1.value.transactionId == transactionId && r.1.value.status == status
  {
    match FirstMatch(rows, transactionId)
    case None => (rows, None)
    case Some(i) => (rows[i := rows[i].(status := status)], Some(rows[i].(status := status)))
  }

  /** The rows after `delete_payment`, and the row it returns. */
  function Deleted(rows: seq<Payment>, transactionId: string): (r: (seq<Payment>, Option<Payment>))
    ensures r.1.None? <==> forall k :: 0 <= k < |rows| ==> rows[k].transactionId != transactionId
    ensures r.1.None? ==> r.0 == rows
    ensures r.1.Some? ==> r.1.value.transactionId == transactionId && multiset(r.0) + multiset{r.1.value} == multiset(rows)
  {
    match FirstMatch(rows, transactionId)
    case None => (rows, None)
    case Some(i) =>
      assert rows == rows[..i] + [rows[i]] + rows[i + 1..];
      (rows[..i] + rows[i + 1..], Some(rows[i]))
  }

  /** Ids are told apart and are below the next one to hand out. */
  ghost predicate IdsFresh(rows: seq<Payment>, nextId: nat) {
    (forall i :: 0 <= i < |rows| ==> rows[i].id < nextId)
    && (forall i, j :: 0 <= i < j < |rows| ==> rows[i].id != rows[j].id)
  }

  class PaymentTable {
    var rows: seq<Payment>
    var nextId: nat

    ghost predicate Valid()
      reads this
    {
      IdsFresh(rows, nextId)
    }

    constructor ()
      ensures rows == [] && nextId == 0 && Valid()
    {
      rows := [];
      nextId := 0;
    }

    /** `create_payment`: add one row with the given fields and return it. */
    method Create(studentId: string, amount: real, transactionId: string, status: string) returns (p: Payment)
      requires Valid()
      modifies this
      ensures Valid()
      ensures p == Payment(old(nextId), studentId, amount, status, transactionId)
      ensures rows == old(rows) + [p] && nextId == old(nextId) + 1
    {
      p := Payment(nextId, studentId, amount, status, transactionId);
      rows := rows + [p];
      nextId := nextId + 1;
    }

    /** `get_payments_by_student`. */
    function PaymentsByStudent(studentId: string): (r: seq<Payment>)
      reads this
      ensures r == ByStudent(rows, studentId)
    {
      ByStudent(rows, studentId)
    }

    /** `update_payment_status`. */
    method UpdateStatus(transactionId: string, status: string) returns (r: Option<Payment>)
      requires Valid()
      modifies this
      ensures Valid()
      ensures (rows, r) == Updated(old(rows), transactionId, status) && nextId == old(nextId)
    {
      var found := FirstMatch(rows, transactionId);
      if found.None? {
        return None;
      }
      var i := found.value;
      var changed := rows[i].(status := status);
      rows := rows[i := changed];
      r := Some(changed);
    }

    /** `delete_payment`. */
    method Delete(transactionId: string) returns (r: Option<Payment>)
      requires Valid()
      modifies this
      ensures Valid()
      ensures (rows, r) == Deleted(old(rows), transactionId) && nextId == old(nextId)
    {
      var found := FirstMatch(rows, transactionId);
      if found.None? {
        return None;
      }
      var i := found.value;
      r := Some(rows[i]);
      DeleteKeepsIds(rows, nextId, i);
      rows := rows[..i] + rows[i + 1..];
    }
  }

  lemma DeleteKeepsIds(rows: seq<Payment>, nextId: nat, i: nat)
    requires IdsFresh(rows, nextId) && i < |rows|
    ensures IdsFresh(rows[..i] + rows[i + 1..], nextId)
  {
    var t := rows[..i] + rows[i + 1..];
    assert forall k :: 0 <= k < |t| ==> t[k] == rows[if k < i then k else k + 1];
  }

  /** A student's listing holds exactly their rows, in table order: the listing of a table with
      one more row is the old listing, plus that row when it is theirs. */
  lemma {:induction false} ByStudentSnoc(rows: seq<Payment>, p: Payment, studentId: string)
    ensures ByStudent(rows + [p], studentId)
      == ByStudent(rows, studentId) + (if p.studentId == studentId then [p] else [])
    decreases |rows|
  {
    if |rows| == 0 {
      assert rows + [p] == [p];
    } else {
      assert (rows + [p])[1..] == rows[1..] + [p];
      ByStudentSnoc(rows[1..], p, studentId);
    }
  }

  /** The update changes the status of the first matching row and nothing else; with no match it
      returns nothing and changes nothing. */
  lemma UpdateOnlyFirst(rows: seq<Payment>, transactionId: string, status: string)
    ensures var (after, r) := Updated(rows, transactionId, status);
      && |after| == |rows|
      && (r.None? <==> forall k :: 0 <= k < |rows| ==> rows[k].transactionId != transactionId)
      && (r.None? ==> after == rows)
      && (r.Some? ==>
            var i := FirstMatch(rows, transactionId).value;
            && r.value == after[i] && after[i] == rows[i].(status := status)
            && r.value.status == status && r.value.transactionId == transactionId
            && (forall k :: 0 <= k < |rows| && k != i ==> after[k] == rows[k])
            && (forall k :: 0 <= k < i ==> rows[k].transactionId != transactionId))
  {
  }

  /** The delete removes only the first matching row and returns it, keeping the others in
      order; with no match it returns nothing and changes nothing. */
  lemma DeleteOnlyFirst(rows: seq<Payment>, transactionId: string)
    ensures var (after, r) := Deleted(rows, transactionId);
      && (r.None? <==> forall k :: 0 <= k < |rows| ==> rows[k].transactionId != transactionId)
      && (r.None? ==> after == rows)
      && (r.Some? ==>
            var i := FirstMatch(rows, transactionId).value;
            && |after| == |rows| - 1 && r.value == rows[i] && r.value.transactionId == transactionId
            && multiset(after) + multiset{r.value} == multiset(rows)
            && (forall k :: 0 <= k < i ==> after[k] == rows[k])
            && (forall k :: i <= k < |after| ==> after[k] == rows[k + 1]))
  {
    var (after, r) := Deleted(rows, transactionId);
    if r.Some? {
      var i := FirstMatch(rows, transactionId).value;
      assert rows == rows[..i] + [rows[i]] + rows[i + 1..];
    }
  }
}
