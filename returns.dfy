/** The return part of `return_create` (storage/views.py): the allocation of
    a new return number and the loop that marks each item of the submission
    as returned. Both item tables carry the same return fields, so the loop
    is stated over the items' ids and their return marks. */
module Returns {
  import opened Wrappers
  import opened StorageModels

  /** One entry of the `return_items` session dict: the item's id, the
      purpose and the condition (both "N/A" when not given). */
  datatype ReturnRequest = ReturnRequest(itemId: int, purpose: string, condition: string)

  /** The returned marks of `marks` that carry the number `n`. */
  predicate HasReturnId(marks: seq<Option<ReturnMark>>, n: int)
  {
    exists j :: 0 <= j < |marks| && marks[j].Some? && marks[j].value.returnId == n
  }

  /** The `return_id` of the first row of
      `filter(return_at__isnull=False).order_by('-return_id')`, or 0 when
      no item of the table was returned. */
  function HighestReturnId(marks: seq<Option<ReturnMark>>): (m: int)
    ensures forall j :: 0 <= j < |marks| && marks[j].Some? ==> marks[j].value.returnId <= m
    ensures (forall j :: 0 <= j < |marks| ==> marks[j].None?) ==> m == 0
    ensures (exists j :: 0 <= j < |marks| && marks[j].Some?) ==> HasReturnId(marks, m)
  {
    if marks == [] then 0
    else
      var init, last := marks[..|marks| - 1], marks[|marks| - 1];
      var rest := HighestReturnId(init);
      assert forall j :: 0 <= j < |init| ==> init[j] == marks[j];
      if last.None? then rest
      else if (exists j :: 0 <= j < |init| && init[j].Some?) && rest >= last.value.returnId then rest
      else last.value.returnId
  }

  /* The two item tables are separate models with different columns (an
     import item has a price and no condition), so each of the accessors
     below comes once per table; the loop itself is shared. */

  function ExportMarks(items: seq<ExportItem>): (r: seq<Option<ReturnMark>>)
    ensures |r| == |items| && forall j :: 0 <= j < |items| ==> r[j] == items[j].returned
  {
    seq(|items|, j requires 0 <= j < |items| => items[j].returned)
  }

  function ImportMarks(items: seq<ImportItem>): (r: seq<Option<ReturnMark>>)
    ensures |r| == |items| && forall j :: 0 <= j < |items| ==> r[j] == items[j].returned
  {
    seq(|items|, j requires 0 <= j < |items| => items[j].returned)
  }

  function ExportIds(items: seq<ExportItem>): (r: seq<int>)
    ensures |r| == |items| && forall j :: 0 <= j < |items| ==> r[j] == items[j].id
  {
    seq(|items|, j requires 0 <= j < |items| => items[j].id)
  }

  function ImportIds(items: seq<ImportItem>): (r: seq<int>)
    ensures |r| == |items| && forall j :: 0 <= j < |items| ==> r[j] == items[j].id
  {
    seq(|items|, j requires 0 <= j < |items| => items[j].id)
  }

  /** `new_return_id`: one more than the larger of the two tables' highest
      return numbers. It is above every number already given, and the number
      below it is either 0 or one already given, so no number is skipped. */
  function NewReturnId(exportItems: seq<ExportItem>, importItems: seq<ImportItem>): (r: int)
    ensures forall j :: 0 <= j < |exportItems| && exportItems[j].returned.Some? ==>
              exportItems[j].returned.value.returnId < r
    ensures forall j :: 0 <= j < |importItems| && importItems[j].returned.Some? ==>
              importItems[j].returned.value.returnId < r
    ensures r == 1 || HasReturnId(ExportMarks(exportItems), r - 1) || HasReturnId(ImportMarks(importItems), r - 1)
    ensures ((forall j :: 0 <= j < |exportItems| ==> exportItems[j].returned.None?)
             && (forall j :: 0 <= j < |importItems| ==> importItems[j].returned.None?)) ==> r == 1
  {
    var e, i := ExportMarks(exportItems), ImportMarks(importItems);
    var highest := if HighestReturnId(e) >= HighestReturnId(i) then HighestReturnId(e) else HighestReturnId(i);
    highest + 1
  }

  /** What one request writes into an item: the shared return number, the
      date read when the request's pass began, the purpose and, for export
      items only, the condition (an import item has no condition column, so
      the value assigned to it is dropped). */
  function MarkFor(q: ReturnRequest, returnId: int, at: Date, withCondition: bool): (r: ReturnMark)
    ensures r.returnId == returnId && r.at == at && r.purpose == q.purpose
    ensures r.condition.Some? <==> withCondition
    ensures r.condition.Some? ==> r.condition.value == q.condition
  {
    ReturnMark(returnId, at, q.purpose, if withCondition then Some(q.condition) else None)
  }

  /** The marks after saving request `q`, dated `at`, on the item whose id it names. */
  function ReturnApply(ids: seq<int>, marks: seq<Option<ReturnMark>>, q: ReturnRequest,
                       returnId: int, at: Date, withCondition: bool): (r: seq<Option<ReturnMark>>)
    requires |ids| == |marks|
    ensures |r| == |marks|
  {
    seq(|marks|, j requires 0 <= j < |marks| =>
      if ids[j] == q.itemId then Some(MarkFor(q, returnId, at, withCondition)) else marks[j])
  }

  /** The marks after the first `n` requests, and the id that stopped the
      loop (`objects.get` raised `DoesNotExist`), if any. */
  datatype ReturnOutcome = ReturnOutcome(marks: seq<Option<ReturnMark>>, missing: Option<int>)

  /** The loop over the first `n` requests; the clock is read afresh on each
      pass, and `nows[k]` is the date read on the pass of request `k`. */
  function ReturnRun(ids: seq<int>, marks: seq<Option<ReturnMark>>, requests: seq<ReturnRequest>, nows: seq<Date>,
                     n: nat, returnId: int, withCondition: bool): (r: ReturnOutcome)
    requires |ids| == |marks| && |nows| == |requests| && n <= |requests|
    ensures |r.marks| == |marks|
  {
    if n == 0 then ReturnOutcome(marks, None)
    else
      var prev := ReturnRun(ids, marks, requests, nows, n - 1, returnId, withCondition);
      var q := requests[n - 1];
      if prev.missing.Some? then prev
      else if q.itemId !in ids then prev.(missing := Some(q.itemId))
      else ReturnOutcome(ReturnApply(ids, prev.marks, q, returnId, nows[n - 1], withCondition), None)
  }

  /** The position of the last of the first `n` requests that names item `id`. */
  function LastRequestFor(requests: seq<ReturnRequest>, n: nat, id: int): (r: Option<nat>)
    requires n <= |requests|
    ensures r.Some? ==> && r.value < n && requests[r.value].itemId == id
                        && forall k :: r.value < k < n ==> requests[k].itemId != id
    ensures r.None? ==> forall k :: 0 <= k < n ==> requests[k].itemId != id
  {
    if n == 0 then None
    else if requests[n - 1].itemId == id then Some(n - 1)
    else LastRequestFor(requests, n - 1, id)
  }

  /** The loop stops exactly when some request names an item that does
      not exist, and then names that item. */
  lemma {:induction false} ReturnRunMissing(ids: seq<int>, marks: seq<Option<ReturnMark>>, requests: seq<ReturnRequest>,
                                             nows: seq<Date>, n: nat, returnId: int, withCondition: bool)
    requires |ids| == |marks| && |nows| == |requests| && n <= |requests|
    ensures var r := ReturnRun(ids, marks, requests, nows, n, returnId, withCondition);
      && (r.missing.None? <==> forall k :: 0 <= k < n ==> requests[k].itemId in ids)
      && (r.missing.Some? ==> r.missing.value !in ids
                              && exists k :: 0 <= k < n && requests[k].itemId == r.missing.value)
  {
    if n > 0 {
      ReturnRunMissing(ids, marks, requests, nows, n - 1, returnId, withCondition);
    }
  }

  /** After a loop that went through, an item named by some request carries
      the mark of the last request naming it, dated when that request's pass
      began, with the one shared return number; every other item keeps its
      mark. */
  lemma {:induction false} ReturnRunMarks(ids: seq<int>, marks: seq<Option<ReturnMark>>, requests: seq<ReturnRequest>,
                                           nows: seq<Date>, n: nat, returnId: int, withCondition: bool)
    requires |ids| == |marks| && |nows| == |requests| && n <= |requests|
    requires ReturnRun(ids, marks, requests, nows, n, returnId, withCondition).missing.None?
    ensures var r := ReturnRun(ids, marks, requests, nows, n, returnId, withCondition);
      forall j :: 0 <= j < |marks| ==>
        r.marks[j] == match LastRequestFor(requests, n, ids[j])
                        case None => marks[j]
                        case Some(k) => Some(MarkFor(requests[k], returnId, nows[k], withCondition))
  {
    if n > 0 {
      ReturnRunMarks(ids, marks, requests, nows, n - 1, returnId, withCondition);
    }
  }

  /** Every item of one submission gets the same return number, and the
      date of the pass of a request naming it. The dates of different items
      can differ, since the clock is read on each pass. */
  lemma ReturnRunSharesId(ids: seq<int>, marks: seq<Option<ReturnMark>>, requests: seq<ReturnRequest>,
                          nows: seq<Date>, returnId: int, withCondition: bool, k: nat, j: nat)
    requires |ids| == |marks| && |nows| == |requests| && k < |requests| && j < |ids|
    requires ReturnRun(ids, marks, requests, nows, |requests|, returnId, withCondition).missing.None?
    requires ids[j] == requests[k].itemId
    ensures var r := ReturnRun(ids, marks, requests, nows, |requests|, returnId, withCondition);
      && r.marks[j].Some? && r.marks[j].value.returnId == returnId
      && exists k' :: 0 <= k' < |requests| && requests[k'].itemId == ids[j] && r.marks[j].value.at == nows[k']
  {
    ReturnRunMarks(ids, marks, requests, nows, |requests|, returnId, withCondition);
    var last := LastRequestFor(requests, |requests|, ids[j]);
    assert last.Some?;
  }

  /** Once a request has stopped the loop, later requests change nothing. */
  lemma {:induction false} ReturnRunSticky(ids: seq<int>, marks: seq<Option<ReturnMark>>, requests: seq<ReturnRequest>,
                                            nows: seq<Date>, n: nat, m: nat, returnId: int, withCondition: bool)
    requires |ids| == |marks| && |nows| == |requests| && n <= m <= |requests|
    requires ReturnRun(ids, marks, requests, nows, n, returnId, withCondition).missing.Some?
    ensures ReturnRun(ids, marks, requests, nows, m, returnId, withCondition)
         == ReturnRun(ids, marks, requests, nows, n, returnId, withCondition)
  {
    if n < m {
      ReturnRunSticky(ids, marks, requests, nows, n, m - 1, returnId, withCondition);
    }
  }
}
