/** The totals of an import record's details page: `fetch_import_record_data`
    lists the record's items with `price * quantity` as each line's total,
    and `import_details` sums those into the grand total
    (storage/views.py). The draft screen of `import_create` shows the same
    product for each draft entry before the commit. */
module Details {
  import opened Wrappers
  import opened StorageModels
  import opened Ledger

  /** The `total_price` of one listed item. */
  function LineTotal(item: ImportItem): real
  {
    item.price * item.quantity as real
  }

  /** The items of record `t`, in table order (`ImportItem.objects.filter(record=...)`). */
  function RecordItems(items: seq<ImportItem>, t: int): (r: seq<ImportItem>)
    ensures |r| <= |items|
    ensures forall j :: 0 <= j < |r| ==> r[j] in items && r[j].record == t
  {
    if items == [] then []
    else
      var last := items[|items| - 1];
      assert items == items[..|items| - 1] + [last];
      RecordItems(items[..|items| - 1], t) + (if last.record == t then [last] else [])
  }

  /** `sum(...)` of the line totals, added up from 0 in list order. */
  function GrandTotal(items: seq<ImportItem>): real
  {
    if items == [] then 0.0
    else GrandTotal(items[..|items| - 1]) + LineTotal(items[|items| - 1])
  }

  /** The sum of the `total` column of the import draft screen. */
  function DraftTotal(lines: seq<ImportLine>): real
  {
    if lines == [] then 0.0
    else DraftTotal(lines[..|lines| - 1]) + lines[|lines| - 1].price * lines[|lines| - 1].quantity as real
  }

  /** Whether the import table holds a record numbered `t`. */
  predicate HasRecord(records: seq<ImportRecord>, t: int)
  {
    exists j :: 0 <= j < |records| && records[j].transId == t
  }

  /** `fetch_import_record_data`: `get_object_or_404` answers "not found"
      when no record is numbered `t`; otherwise the record's items are
      listed, in table order, each with its line total. */
  method FetchImportRecordData(records: seq<ImportRecord>, items: seq<ImportItem>, t: int)
    returns (found: bool, listed: seq<ImportItem>, totals: seq<real>)
    ensures found <==> HasRecord(records, t)
    ensures !found ==> listed == [] && totals == []
    ensures found ==> listed == RecordItems(items, t)
    ensures |totals| == |listed| && forall j :: 0 <= j < |totals| ==> totals[j] == LineTotal(listed[j])
  {
    found := exists j | 0 <= j < |records| :: records[j].transId == t;
    listed, totals := [], [];
    if !found {
      return;
    }
    var i := 0;
    while i < |items|
      invariant 0 <= i <= |items|
      invariant listed == RecordItems(items[..i], t)
      invariant |totals| == |listed| && forall j :: 0 <= j < |totals| ==> totals[j] == LineTotal(listed[j])
    {
      assert items[..i + 1] == items[..i] + [items[i]];
      if items[i].record == t {
        listed, totals := listed + [items[i]], totals + [LineTotal(items[i])];
      }
      i := i + 1;
    }
    assert items[..|items|] == items;
  }

  /** `import_details`: not found when no record is numbered `t`; otherwise
      the grand total of record `t` is the sum of its line totals. */
  method ImportDetails(records: seq<ImportRecord>, items: seq<ImportItem>, t: int) returns (grandTotal: Option<real>)
    ensures grandTotal.None? <==> !HasRecord(records, t)
    ensures grandTotal.Some? ==> grandTotal.value == GrandTotal(RecordItems(items, t))
  {
    var found, listed, totals := FetchImportRecordData(records, items, t);
    if !found {
      return None;
    }
    var sum := 0.0;
    var k := 0;
    while k < |totals|
      invariant 0 <= k <= |totals|
      invariant sum == GrandTotal(listed[..k])
    {
      assert listed[..k + 1][..k] == listed[..k];
      sum := sum + totals[k];
      k := k + 1;
    }
    assert listed[..|totals|] == listed;
    return Some(sum);
  }

  lemma {:induction false} RecordItemsAppend(a: seq<ImportItem>, b: seq<ImportItem>, t: int)
    ensures RecordItems(a + b, t) == RecordItems(a, t) + RecordItems(b, t)
    decreases |b|
  {
    if b == [] {
      assert a + b == a;
    } else {
      assert (a + b)[..|a + b| - 1] == a + b[..|b| - 1];
      RecordItemsAppend(a, b[..|b| - 1], t);
    }
  }

  lemma {:induction false} RecordItemsAll(b: seq<ImportItem>, t: int)
    requires forall j :: 0 <= j < |b| ==> b[j].record == t
    ensures RecordItems(b, t) == b
    decreases |b|
  {
    if b != [] {
      RecordItemsAll(b[..|b| - 1], t);
      assert b == b[..|b| - 1] + [b[|b| - 1]];
    }
  }

  lemma {:induction false} RecordItemsNone(a: seq<ImportItem>, t: int)
    requires forall j :: 0 <= j < |a| ==> a[j].record != t
    ensures RecordItems(a, t) == []
    decreases |a|
  {
    if a != [] {
      RecordItemsNone(a[..|a| - 1], t);
    }
  }

  /** Items carrying the drafted quantities and prices, line for line, add
      up to the draft's total. */
  lemma {:induction false} GrandTotalOfDraft(items: seq<ImportItem>, lines: seq<ImportLine>)
    requires |items| == |lines|
    requires forall j :: 0 <= j < |items| ==> items[j].quantity == lines[j].quantity && items[j].price == lines[j].price
    ensures GrandTotal(items) == DraftTotal(lines)
    decreases |items|
  {
    if items != [] {
      GrandTotalOfDraft(items[..|items| - 1], lines[..|lines| - 1]);
    }
  }

  /** Appending items of record `t` that carry the first lines' quantities
      and prices to a table holding only earlier records: record `t` then
      lists exactly those items, and they add up to those lines' total. */
  lemma RecordTotalOfLines(items: seq<ImportItem>, created: seq<ImportItem>, lines: seq<ImportLine>, t: int)
    requires forall j :: 0 <= j < |items| ==> items[j].record < t
    requires |created| <= |lines|
    requires forall j :: 0 <= j < |created| ==>
      created[j].record == t && created[j].quantity == lines[j].quantity && created[j].price == lines[j].price
    ensures RecordItems(items + created, t) == created
    ensures GrandTotal(created) == DraftTotal(lines[..|created|])
  {
    RecordItemsAppend(items, created, t);
    RecordItemsAll(created, t);
    RecordItemsNone(items, t);
    GrandTotalOfDraft(created, lines[..|created|]);
  }

  /** After an import commit into a table whose items all belong to earlier
      records, the details page of the new record lists exactly the items the
      commit created, and its grand total is the draft total of the lines
      that were saved: all of the draft when the commit went through. */
  lemma CommittedRecordTotal(items: seq<ImportItem>, state: map<int, AssetState>, lines: seq<ImportLine>, t: int,
                             firstItemId: int)
    requires forall j :: 0 <= j < |items| ==> items[j].record < t
    ensures var r := ImportRun(state, lines, t, firstItemId);
      && RecordItems(items + r.created, t) == r.created
      && GrandTotal(RecordItems(items + r.created, t)) == DraftTotal(lines[..|r.created|])
      && (r.error.None? ==> GrandTotal(RecordItems(items + r.created, t)) == DraftTotal(lines))
  {
    var r := ImportRun(state, lines, t, firstItemId);
    ImportRunCreated(state, lines, t, firstItemId);
    RecordTotalOfLines(items, r.created, lines, t);
    if r.error.None? {
      assert lines[..|r.created|] == lines;
    }
  }
}
