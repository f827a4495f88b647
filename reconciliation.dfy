/** The inventory report of storage/views.py (`report_inventory`): for each
    asset, the import and export items dated on or before a cutoff are put on
    a timeline, stably sorted by date, and replayed with a running total; the
    rows are then sorted by (category name, asset id). The database reads of
    the source are inputs here: the assets in the order the query returns them,
    and the import and export items already joined with their record's date. */
module Reconciliation {
  import opened Wrappers
  import Sorting
  import Pricing
  import opened StorageModels

  /** An import or export item with the date of its record. */
  datatype Movement = Movement(assetId: int, date: Date, quantity: nat)

  /** The fields of an asset the report reads (`asset.category.name` included). */
  datatype AssetInfo = AssetInfo(id: int, category: string, name: string, brand: string, brandEn: string,
                                 unit: Unit, stock: nat, priceHistory: seq<real>)

  datatype Kind = Import | Export

  /** One timeline entry: its type, its date and its quantity. */
  datatype Entry = Entry(kind: Kind, date: Date, quantity: nat)

  /** One element of `differences`: a timeline entry and the running total after it. */
  datatype Difference = Difference(date: Date, kind: Kind, quantity: nat, runningTotal: int)

  /** One row of the report. `brand` is the two brand names joined by a space. */
  datatype AssetRow = AssetRow(id: int, category: string, name: string, brand: string, unit: Unit, stock: nat,
                               averagePrice: Option<real>, netQuantity: int, differences: seq<Difference>)

  predicate Matches(m: Movement, assetId: int, endDate: Date)
  {
    m.assetId == assetId && DateLe(m.date, endDate)
  }

  /** The items of one asset dated on or before `endDate`, in query order. */
  function Selected(ms: seq<Movement>, assetId: int, endDate: Date): (r: seq<Movement>)
    ensures |r| <= |ms|
    ensures forall m :: m in r <==> m in ms && Matches(m, assetId, endDate)
  {
    if ms == [] then []
    else
      var last := ms[|ms| - 1];
      assert ms == ms[..|ms| - 1] + [last];
      Selected(ms[..|ms| - 1], assetId, endDate) + (if Matches(last, assetId, endDate) then [last] else [])
  }

  function EntriesOf(ms: seq<Movement>, kind: Kind): (r: seq<Entry>)
  {
    seq(|ms|, i requires 0 <= i < |ms| => Entry(kind, ms[i].date, ms[i].quantity))
  }

  /** The timeline before sorting: the asset's imports, then its exports. */
  function Collected(assetId: int, imports: seq<Movement>, exports: seq<Movement>, endDate: Date): seq<Entry>
  {
    EntriesOf(Selected(imports, assetId, endDate), Import) + EntriesOf(Selected(exports, assetId, endDate), Export)
  }

  /** The sort key of the timeline: the date alone. */
  predicate EntryLe(x: Entry, y: Entry)
  {
    DateLe(x.date, y.date)
  }

  function Timeline(assetId: int, imports: seq<Movement>, exports: seq<Movement>, endDate: Date): seq<Entry>
  {
    Sorting.SortBy(Collected(assetId, imports, exports, endDate), EntryLe)
  }

  function Signed(e: Entry): int
  {
    if e.kind == Import then e.quantity as int else -(e.quantity as int)
  }

  /** The stock change of a run of entries: imports add, exports subtract. */
  function Net(entries: seq<Entry>): int
  {
    if entries == [] then 0 else Net(entries[..|entries| - 1]) + Signed(entries[|entries| - 1])
  }

  function QtySum(ms: seq<Movement>): int
  {
    if ms == [] then 0 else QtySum(ms[..|ms| - 1]) + ms[|ms| - 1].quantity
  }

  lemma EntriesOfSnoc(ms: seq<Movement>, m: Movement, kind: Kind)
    ensures EntriesOf(ms + [m], kind) == EntriesOf(ms, kind) + [Entry(kind, m.date, m.quantity)]
  {
  }

  lemma QtySumSnoc(ms: seq<Movement>, m: Movement)
    ensures QtySum(ms + [m]) == QtySum(ms) + m.quantity
  {
    assert (ms + [m])[..|ms|] == ms;
  }

  /** The `differences` list: every timeline entry with the net change up to and including it. */
  function Replay(timeline: seq<Entry>): (r: seq<Difference>)
    ensures |r| == |timeline|
  {
    seq(|timeline|, i requires 0 <= i < |timeline| =>
      Difference(timeline[i].date, timeline[i].kind, timeline[i].quantity, Net(timeline[..i + 1])))
  }

  /** Each difference records the date, type and quantity of its own
      timeline entry, in timeline order. */
  lemma ReplayEntries(timeline: seq<Entry>, i: nat)
    requires i < |timeline|
    ensures var d := Replay(timeline)[i];
      d.date == timeline[i].date && d.kind == timeline[i].kind && d.quantity == timeline[i].quantity
  {
  }

  /** The report row of one asset: the asset's own columns, and one
      difference for each of its items dated on or before `endDate`. */
  function AssetReport(a: AssetInfo, imports: seq<Movement>, exports: seq<Movement>, endDate: Date): (r: AssetRow)
    ensures r.id == a.id && r.stock == a.stock && r.unit == a.unit && r.averagePrice == Pricing.AveragePrice(a.priceHistory)
    ensures |r.differences| == |Selected(imports, a.id, endDate)| + |Selected(exports, a.id, endDate)|
  {
    AssetRow(a.id, a.category, a.name, a.brand + " " + a.brandEn, a.unit, a.stock,
             Pricing.AveragePrice(a.priceHistory),
             QtySum(Selected(imports, a.id, endDate)) - QtySum(Selected(exports, a.id, endDate)),
             Replay(Timeline(a.id, imports, exports, endDate)))
  }

  /** The two appending loops: the imports' entries, then the exports'. */
  method CollectTimeline(importItems: seq<Movement>, exportItems: seq<Movement>) returns (timeline: seq<Entry>)
    ensures timeline == EntriesOf(importItems, Import) + EntriesOf(exportItems, Export)
  {
    timeline := [];
    for i := 0 to |importItems|
      invariant timeline == EntriesOf(importItems[..i], Import)
    {
      EntriesOfSnoc(importItems[..i], importItems[i], Import);
      assert importItems[..i + 1] == importItems[..i] + [importItems[i]];
      timeline := timeline + [Entry(Import, importItems[i].date, importItems[i].quantity)];
    }
    assert importItems[..|importItems|] == importItems;
    var importPart := timeline;
    for i := 0 to |exportItems|
      invariant timeline == importPart + EntriesOf(exportItems[..i], Export)
    {
      EntriesOfSnoc(exportItems[..i], exportItems[i], Export);
      assert exportItems[..i + 1] == exportItems[..i] + [exportItems[i]];
      timeline := timeline + [Entry(Export, exportItems[i].date, exportItems[i].quantity)];
    }
    assert exportItems[..|exportItems|] == exportItems;
  }

  /** The running-total loop over the sorted timeline. */
  method ReplayTimeline(timeline: seq<Entry>) returns (differences: seq<Difference>)
    ensures differences == Replay(timeline)
  {
    var runningTotal := 0;
    differences := [];
    for i := 0 to |timeline|
      invariant runningTotal == Net(timeline[..i])
      invariant |differences| == i
      invariant forall j :: 0 <= j < i ==> differences[j] == Replay(timeline)[j]
    {
      assert timeline[..i + 1][..i] == timeline[..i];
      var entry := timeline[i];
      if entry.kind == Import {
        runningTotal := runningTotal + entry.quantity;
      } else {
        runningTotal := runningTotal - entry.quantity;
      }
      differences := differences + [Difference(entry.date, entry.kind, entry.quantity, runningTotal)];
    }
  }

  /** The loop body of `report_inventory` for one asset; the two filtered
      queries are `Selected`, the two `sum` expressions `QtySum`. */
  method ReconcileAsset(a: AssetInfo, imports: seq<Movement>, exports: seq<Movement>, endDate: Date)
    returns (row: AssetRow)
    ensures row == AssetReport(a, imports, exports, endDate)
  {
    var importItems := Selected(imports, a.id, endDate);
    var exportItems := Selected(exports, a.id, endDate);
    var timeline := CollectTimeline(importItems, exportItems);
    timeline := Sorting.SortBy(timeline, EntryLe);
    var differences := ReplayTimeline(timeline);
    var totalImports := QtySum(importItems);
    var totalExports := QtySum(exportItems);
    row := AssetRow(a.id, a.category, a.name, a.brand + " " + a.brandEn, a.unit, a.stock,
                    Pricing.AveragePrice(a.priceHistory), totalImports - totalExports, differences);
  }

  lemma EntryLeTotalPreorder()
    ensures Sorting.TotalPreorder(EntryLe)
  {
  }

  /** The timeline holds exactly the selected imports and exports, each once. */
  lemma TimelineMembers(assetId: int, imports: seq<Movement>, exports: seq<Movement>, endDate: Date)
    ensures multiset(Timeline(assetId, imports, exports, endDate))
         == multiset(EntriesOf(Selected(imports, assetId, endDate), Import))
          + multiset(EntriesOf(Selected(exports, assetId, endDate), Export))
  {
  }

  /** The timeline is in date order. */
  lemma TimelineSorted(assetId: int, imports: seq<Movement>, exports: seq<Movement>, endDate: Date)
    ensures Sorting.SortedBy(Timeline(assetId, imports, exports, endDate), EntryLe)
  {
    EntryLeTotalPreorder();
    Sorting.SortBySorted(Collected(assetId, imports, exports, endDate), EntryLe);
  }

  /** `list.sort` is stable: the entries of any one day keep their collected
      order, that day's imports first (in query order), then its exports. */
  lemma TimelineSameDay(assetId: int, imports: seq<Movement>, exports: seq<Movement>, endDate: Date, k: Entry)
    ensures Sorting.Keep(Timeline(assetId, imports, exports, endDate), EntryLe, k)
         == Sorting.Keep(EntriesOf(Selected(imports, assetId, endDate), Import), EntryLe, k)
          + Sorting.Keep(EntriesOf(Selected(exports, assetId, endDate), Export), EntryLe, k)
  {
    EntryLeTotalPreorder();
    Sorting.SortByStable(Collected(assetId, imports, exports, endDate), EntryLe, k);
    Sorting.KeepAppend(EntriesOf(Selected(imports, assetId, endDate), Import),
                       EntriesOf(Selected(exports, assetId, endDate), Export), EntryLe, k);
  }

  /** Each running total is the previous one (zero before the first entry)
      plus the entry's quantity for an import, minus it for an export. */
  lemma RunningTotalStep(timeline: seq<Entry>, i: nat)
    requires i < |timeline|
    ensures Replay(timeline)[i].runningTotal
         == (if i == 0 then 0 else Replay(timeline)[i - 1].runningTotal) + Signed(timeline[i])
  {
    assert timeline[..i + 1] == timeline[..i] + [timeline[i]];
    NetSnoc(timeline[..i], timeline[i]);
  }

  lemma NetSnoc(s: seq<Entry>, x: Entry)
    ensures Net(s + [x]) == Net(s) + Signed(x)
  {
    assert (s + [x])[..|s|] == s;
  }

  lemma {:induction false} NetAppend(a: seq<Entry>, b: seq<Entry>)
    ensures Net(a + b) == Net(a) + Net(b)
    decreases |b|
  {
    if b == [] {
      assert a + b == a;
    } else {
      var init := b[..|b| - 1];
      assert a + b == (a + init) + [b[|b| - 1]];
      NetSnoc(a + init, b[|b| - 1]);
      NetAppend(a, init);
    }
  }

  lemma {:induction false} NetInsertBy(x: Entry, s: seq<Entry>)
    ensures Net(Sorting.InsertBy(x, s, EntryLe)) == Net(s) + Signed(x)
    decreases |s|
  {
    if s == [] || EntryLe(s[|s| - 1], x) {
      NetSnoc(s, x);
    } else {
      var init := s[..|s| - 1];
      var last := s[|s| - 1];
      NetInsertBy(x, init);
      NetSnoc(Sorting.InsertBy(x, init, EntryLe), last);
    }
  }

  /** Sorting does not change the net movement. */
  lemma {:induction false} NetSortBy(s: seq<Entry>)
    ensures Net(Sorting.SortBy(s, EntryLe)) == Net(s)
    decreases |s|
  {
    if s != [] {
      var init := s[..|s| - 1];
      NetSortBy(init);
      NetInsertBy(s[|s| - 1], Sorting.SortBy(init, EntryLe));
    }
  }

  lemma {:induction false} NetEntries(ms: seq<Movement>, kind: Kind)
    ensures Net(EntriesOf(ms, kind)) == if kind == Import then QtySum(ms) else -QtySum(ms)
    decreases |ms|
  {
    if ms != [] {
      var init := ms[..|ms| - 1];
      var last := ms[|ms| - 1];
      assert ms == init + [last];
      EntriesOfSnoc(init, last, kind);
      NetSnoc(EntriesOf(init, kind), Entry(kind, last.date, last.quantity));
      NetEntries(init, kind);
    }
  }

  /** The timeline's net movement is the imported minus the exported quantity. */
  lemma TimelineNet(assetId: int, imports: seq<Movement>, exports: seq<Movement>, endDate: Date)
    ensures Net(Timeline(assetId, imports, exports, endDate))
         == QtySum(Selected(imports, assetId, endDate)) - QtySum(Selected(exports, assetId, endDate))
  {
    var imp := EntriesOf(Selected(imports, assetId, endDate), Import);
    var exp := EntriesOf(Selected(exports, assetId, endDate), Export);
    NetEntries(Selected(imports, assetId, endDate), Import);
    NetEntries(Selected(exports, assetId, endDate), Export);
    NetAppend(imp, exp);
    NetSortBy(imp + exp);
  }

  /** The last running total is the net movement of the whole timeline. */
  lemma ReplayLast(timeline: seq<Entry>)
    requires timeline != []
    ensures Replay(timeline)[|timeline| - 1].runningTotal == Net(timeline)
  {
    assert timeline[..|timeline|] == timeline;
  }

  /** `net_quantity` (imports minus exports) is the last running total of the
      timeline, and zero when the timeline is empty. */
  lemma NetQuantityIsFinalTotal(a: AssetInfo, imports: seq<Movement>, exports: seq<Movement>, endDate: Date)
    ensures var row := AssetReport(a, imports, exports, endDate);
      if row.differences == [] then row.netQuantity == 0
      else row.netQuantity == row.differences[|row.differences| - 1].runningTotal
  {
    var t := Timeline(a.id, imports, exports, endDate);
    TimelineNet(a.id, imports, exports, endDate);
    ReplayFinal(t, QtySum(Selected(imports, a.id, endDate)) - QtySum(Selected(exports, a.id, endDate)));
  }

  lemma ReplayFinal(timeline: seq<Entry>, net: int)
    requires Net(timeline) == net
    ensures var r := Replay(timeline);
      if r == [] then net == 0 else net == r[|r| - 1].runningTotal
  {
    if timeline != [] {
      ReplayLast(timeline);
    }
  }

  /** Python's comparison of two strings: code point by code point, a proper
      prefix coming first. */
  predicate StrLe(a: string, b: string)
  {
    if a == [] then true
    else if b == [] then false
    else if a[0] != b[0] then a[0] < b[0]
    else StrLe(a[1..], b[1..])
  }

  lemma {:induction false} StrLeTotal(a: string, b: string)
    ensures StrLe(a, b) || StrLe(b, a)
  {
    if a != [] && b != [] && a[0] == b[0] {
      StrLeTotal(a[1..], b[1..]);
    }
  }

  lemma {:induction false} StrLeTransitive(a: string, b: string, c: string)
    requires StrLe(a, b) && StrLe(b, c)
    ensures StrLe(a, c)
  {
    if a != [] && b != [] && c != [] && a[0] == b[0] == c[0] {
      StrLeTransitive(a[1..], b[1..], c[1..]);
    }
  }

  lemma {:induction false} StrLeAntisymmetric(a: string, b: string)
    requires StrLe(a, b) && StrLe(b, a)
    ensures a == b
  {
    if a != [] && b != [] {
      StrLeAntisymmetric(a[1..], b[1..]);
      assert a == [a[0]] + a[1..] && b == [b[0]] + b[1..];
    }
  }

  /** The sort key of the report: (category name, id). */
  predicate RowLe(x: AssetRow, y: AssetRow)
  {
    (x.category != y.category && StrLe(x.category, y.category)) || (x.category == y.category && x.id <= y.id)
  }

  lemma RowLeTotalPreorder()
    ensures Sorting.TotalPreorder(RowLe)
  {
    forall x: AssetRow, y: AssetRow
      ensures RowLe(x, y) || RowLe(y, x)
    {
      StrLeTotal(x.category, y.category);
    }
    forall x: AssetRow, y: AssetRow, z: AssetRow | RowLe(x, y) && RowLe(y, z)
      ensures RowLe(x, z)
    {
      if x.category != y.category && y.category != z.category {
        StrLeTransitive(x.category, y.category, z.category);
        if x.category == z.category {
          StrLeAntisymmetric(x.category, y.category);
        }
      }
    }
  }

  function Rows(assets: seq<AssetInfo>, imports: seq<Movement>, exports: seq<Movement>, endDate: Date): seq<AssetRow>
  {
    seq(|assets|, i requires 0 <= i < |assets| => AssetReport(assets[i], imports, exports, endDate))
  }

  /** `report_inventory`: one row per asset, sorted by (category name, id). */
  method ReportInventory(assets: seq<AssetInfo>, imports: seq<Movement>, exports: seq<Movement>, endDate: Date)
    returns (report: seq<AssetRow>)
    ensures |report| == |assets|
    ensures multiset(report) == multiset(Rows(assets, imports, exports, endDate))
    ensures Sorting.SortedBy(report, RowLe)
  {
    var rows: seq<AssetRow> := [];
    for i := 0 to |assets|
      invariant rows == Rows(assets[..i], imports, exports, endDate)
    {
      var row := ReconcileAsset(assets[i], imports, exports, endDate);
      rows := rows + [row];
    }
    assert assets[..|assets|] == assets;
    report := Sorting.SortBy(rows, RowLe);
    RowLeTotalPreorder();
    Sorting.SortBySorted(rows, RowLe);
  }
}
