/** The transaction views of storage/views.py: the session drafts of import
    and export items (`import_item_add`, `import_item_delete`,
    `export_item_add`, `export_item_delete`), the commit loops of
    `import_create` and `export_create`, the return-id allocation and
    annotation loop of `return_create`, and the totals of `import_details`.
    A session draft is a Python dict, iterated in insertion order; it is
    modelled as the list of its keys in that order plus a map. */
module Transactions {
  import opened Wrappers
  import opened StorageModels
  import opened Ledger
  import StorageForms
  import Returns

  /** An import draft entry, keyed by asset id. The quantity is kept as
      typed: nothing checks its sign before the commit. */
  datatype ImportEntry = ImportEntry(quantity: int, price: real)

  /** An export draft entry, keyed by a running number. */
  datatype ExportEntry = ExportEntry(assetId: int, quantity: int, price: real)

  /** The outcome of submitting a record: refused before anything is saved,
      saved completely, or stopped by an error after the record and some
      of its items were saved. */
  datatype CommitResult = Rejected | Committed(transId: int) | Failed(transId: int, error: CommitError)

  predicate Distinct(s: seq<int>)
  {
    forall j, k :: 0 <= j < k < |s| ==> s[j] != s[k]
  }

  predicate Increasing(s: seq<int>)
  {
    forall j, k :: 0 <= j < k < |s| ==> s[j] < s[k]
  }

  /** `max(keys, default=0)`. */
  function MaxKey(keys: seq<int>): (m: int)
    ensures keys == [] ==> m == 0
    ensures keys != [] ==> m in keys && forall k :: k in keys ==> k <= m
  {
    if keys == [] then 0
    else
      var rest := MaxKey(keys[..|keys| - 1]);
      var last := keys[|keys| - 1];
      assert keys == keys[..|keys| - 1] + [last];
      if |keys| == 1 || last > rest then last else rest
  }

  /** `keys` without `k`, the others in their order. */
  function Without(keys: seq<int>, k: int): (r: seq<int>)
    ensures forall x :: x in r <==> x in keys && x != k
    ensures k !in keys ==> r == keys
  {
    if keys == [] then []
    else
      var last := keys[|keys| - 1];
      assert keys == keys[..|keys| - 1] + [last];
      Without(keys[..|keys| - 1], k) + (if last == k then [] else [last])
  }

  /** Removing a key from distinct keys leaves them distinct. */
  lemma {:induction false} WithoutDistinct(keys: seq<int>, k: int)
    requires Distinct(keys)
    ensures Distinct(Without(keys, k))
    decreases |keys|
  {
    if keys != [] {
      var init, last := keys[..|keys| - 1], keys[|keys| - 1];
      assert Distinct(init) by {
        forall j, j' | 0 <= j < j' < |init|
          ensures init[j] != init[j']
        {
          assert init[j] == keys[j] && init[j'] == keys[j'];
        }
      }
      WithoutDistinct(init, k);
      var rest, r := Without(init, k), Without(keys, k);
      assert r == rest + (if last == k then [] else [last]);
      forall j, j' | 0 <= j < j' < |r|
        ensures r[j] != r[j']
      {
        if j' == |rest| {
          assert r[j] == rest[j] && rest[j] in rest;
          var m :| 0 <= m < |init| && init[m] == rest[j];
          assert keys[m] == rest[j];
        }
      }
    }
  }

  /** Removing a key from increasing keys leaves them increasing. */
  lemma {:induction false} WithoutIncreasing(keys: seq<int>, k: int)
    requires Increasing(keys)
    ensures Increasing(Without(keys, k))
    decreases |keys|
  {
    if keys != [] {
      var init, last := keys[..|keys| - 1], keys[|keys| - 1];
      assert Increasing(init) by {
        forall j, j' | 0 <= j < j' < |init|
          ensures init[j] < init[j']
        {
          assert init[j] == keys[j] && init[j'] == keys[j'];
        }
      }
      WithoutIncreasing(init, k);
      var rest, r := Without(init, k), Without(keys, k);
      assert r == rest + (if last == k then [] else [last]);
      forall j, j' | 0 <= j < j' < |r|
        ensures r[j] < r[j']
      {
        if j' == |rest| {
          assert r[j] == rest[j] && rest[j] in rest;
          var m :| 0 <= m < |init| && init[m] == rest[j];
          assert keys[m] == rest[j];
        }
      }
    }
  }

  function ImportLinesOf(order: seq<int>, draft: map<int, ImportEntry>): seq<ImportLine>
    requires forall k :: k in order ==> k in draft
  {
    seq(|order|, j requires 0 <= j < |order| =>
      var k := order[j];
      assert k in order;
      ImportLine(k, draft[k].quantity, draft[k].price))
  }

  function ExportLinesOf(order: seq<int>, draft: map<int, ExportEntry>): seq<ExportLine>
    requires forall k :: k in order ==> k in draft
  {
    seq(|order|, j requires 0 <= j < |order| =>
      var k := order[j];
      assert k in order;
      ExportLine(k, draft[k].assetId, draft[k].quantity, draft[k].price))
  }

  /** The draft lines of an import are of distinct assets, since the draft
      is keyed by asset id. */
  lemma ImportLinesDistinct(order: seq<int>, draft: map<int, ImportEntry>)
    requires forall k :: k in order ==> k in draft
    requires Distinct(order)
    ensures DistinctAssets(ImportLinesOf(order, draft))
  {
  }

  /** The `import_items` and `export_items` dicts of a user's session. */
  class Session {
    var importOrder: seq<int>
    var importDraft: map<int, ImportEntry>
    var exportOrder: seq<int>
    var exportDraft: map<int, ExportEntry>

    ghost predicate Valid()
      reads this
    {
      && Distinct(importOrder) && (forall k :: k in importOrder <==> k in importDraft)
      && Increasing(exportOrder) && (forall k :: k in exportOrder <==> k in exportDraft)
    }

    constructor ()
      ensures Valid()
      ensures importOrder == [] && importDraft == map[] && exportOrder == [] && exportDraft == map[]
    {
      importOrder, importDraft := [], map[];
      exportOrder, exportDraft := [], map[];
    }

    /** Deletes the `import_items` key of the session. */
    method ClearImports()
      requires Valid()
      modifies this
      ensures Valid()
      ensures importOrder == [] && importDraft == map[]
      ensures exportOrder == old(exportOrder) && exportDraft == old(exportDraft)
    {
      importOrder, importDraft := [], map[];
    }

    /** Deletes the `export_items` key of the session. */
    method ClearExports()
      requires Valid()
      modifies this
      ensures Valid()
      ensures exportOrder == [] && exportDraft == map[]
      ensures importOrder == old(importOrder) && importDraft == old(importDraft)
    {
      exportOrder, exportDraft := [], map[];
    }

    /** `import_item_add`: with an asset, a quantity and a price all given,
        the entry for that asset is set, replacing any earlier one in its
        place; otherwise nothing changes. */
    method ImportItemAdd(assetId: Option<int>, quantity: Option<int>, price: Option<real>)
      requires Valid()
      modifies this
      ensures Valid()
      ensures exportOrder == old(exportOrder) && exportDraft == old(exportDraft)
      ensures assetId.None? || quantity.None? || price.None? ==>
        importOrder == old(importOrder) && importDraft == old(importDraft)
      ensures assetId.Some? && quantity.Some? && price.Some? ==>
        && importDraft == old(importDraft)[assetId.value := ImportEntry(quantity.value, price.value)]
        && importOrder == if assetId.value in old(importDraft) then old(importOrder) else old(importOrder) + [assetId.value]
    {
      if assetId.Some? && price.Some? && quantity.Some? {
        var key := assetId.value;
        if key !in importDraft {
          importOrder := importOrder + [key];
        }
        importDraft := importDraft[key := ImportEntry(quantity.value, price.value)];
      }
    }

    /** `import_item_delete`: removes the asset's entry if there is one. */
    method ImportItemDelete(assetId: int)
      requires Valid()
      modifies this
      ensures Valid()
      ensures exportOrder == old(exportOrder) && exportDraft == old(exportDraft)
      ensures importDraft == old(importDraft) - {assetId}
      ensures importOrder == Without(old(importOrder), assetId)
    {
      if assetId in importDraft {
        WithoutDistinct(importOrder, assetId);
        importDraft := importDraft - {assetId};
        importOrder := Without(importOrder, assetId);
      }
    }

    /** `export_item_add`: an entry is added only for an existing asset with
        an average price, and only when a quantity is given. Its key is one
        more than the largest key so far (1 for an empty draft), and it
        records that average price. */
    method ExportItemAdd(db: Storage, assetId: Option<int>, quantity: Option<int>)
      requires Valid()
      modifies this
      ensures Valid()
      ensures importOrder == old(importOrder) && importDraft == old(importDraft)
      ensures var added := assetId.Some? && assetId.value in db.assets
                           && db.assets[assetId.value].AveragePrice().Some? && quantity.Some?;
        && (!added ==> exportOrder == old(exportOrder) && exportDraft == old(exportDraft))
        && (added ==>
              var key := MaxKey(old(exportOrder)) + 1;
              && key !in old(exportDraft)
              && exportOrder == old(exportOrder) + [key]
              && exportDraft == old(exportDraft)[key := ExportEntry(assetId.value, quantity.value,
                                                                   db.assets[assetId.value].AveragePrice().value)])
    {
      if assetId.None? || assetId.value !in db.assets {
        return;
      }
      var price := db.assets[assetId.value].AveragePrice();
      if price.None? {
        return;
      }
      if quantity.Some? {
        var key := MaxKey(exportOrder) + 1;
        exportOrder := exportOrder + [key];
        exportDraft := exportDraft[key := ExportEntry(assetId.value, quantity.value, price.value)];
      }
    }

    /** `export_item_delete`: removes the entry with that key if there is one. */
    method ExportItemDelete(key: int)
      requires Valid()
      modifies this
      ensures Valid()
      ensures importOrder == old(importOrder) && importDraft == old(importDraft)
      ensures exportDraft == old(exportDraft) - {key}
      ensures exportOrder == Without(old(exportOrder), key)
    {
      if key in exportDraft {
        WithoutIncreasing(exportOrder, key);
        exportDraft := exportDraft - {key};
        exportOrder := Without(exportOrder, key);
      }
    }
  }

  /** The `ImportRecord` and `ImportItem` tables. Primary keys are handed
      out by counters, as serial columns hand them out. */
  class ImportTables {
    var records: seq<ImportRecord>
    var items: seq<ImportItem>
    var nextTransId: int
    var nextItemId: int

    /** Empty tables whose first keys are 1. */
    constructor ()
      ensures Valid()
      ensures records == [] && items == [] && nextTransId == 1 && nextItemId == 1
    {
      records, items := [], [];
      nextTransId, nextItemId := 1, 1;
    }

    /** Every stored key is below the next one to be handed out. */
    ghost predicate Valid()
      reads this
    {
      && (forall j :: 0 <= j < |records| ==> records[j].transId < nextTransId)
      && (forall j :: 0 <= j < |items| ==> items[j].record < nextTransId && items[j].id < nextItemId)
    }
  }

  /** The `ExportRecord` and `ExportItem` tables. */
  class ExportTables {
    var records: seq<ExportRecord>
    var items: seq<ExportItem>
    var nextTransId: int
    var nextItemId: int

    constructor ()
      ensures Valid()
      ensures records == [] && items == [] && nextTransId == 1 && nextItemId == 1
    {
      records, items := [], [];
      nextTransId, nextItemId := 1, 1;
    }

    ghost predicate Valid()
      reads this
    {
      && (forall j :: 0 <= j < |records| ==> records[j].transId < nextTransId)
      && (forall j :: 0 <= j < |items| ==> items[j].record < nextTransId && items[j].id < nextItemId)
    }
  }

  /** Which table a return submission marks. */
  datatype ReturnKind = ExportReturn | ImportReturn

  /** The database the transaction views read and write: the asset rows,
      keyed by id, and the transaction tables. */
  class Storage {
    const assets: map<int, Asset>
    const imports: ImportTables
    const exports: ExportTables

    constructor (assets: map<int, Asset>, imports: ImportTables, exports: ExportTables)
      ensures this.assets == assets && this.imports == imports && this.exports == exports
    {
      this.assets := assets;
      this.imports := imports;
      this.exports := exports;
    }

    /** Each asset row is stored under its own id (so distinct keys hold
        distinct rows), and the tables' keys are consistent. */
    ghost predicate Valid()
      reads imports, exports
    {
      && (forall i :: i in assets ==> assets[i].id == i)
      && imports.Valid() && exports.Valid()
    }

    /** The stock and price history of every asset. */
    ghost function Snapshot(): map<int, AssetState>
      reads assets.Values
    {
      map i | i in assets :: AssetState(assets[i].stock, assets[i].priceHistory)
    }

    /** The asset side of one import line: `add_price` saves the price,
        then the stock changes by the quantity and the row is saved, which
        the database refuses when the stock would go below zero; `saved`
        tells which. */
    method Receive(line: ImportLine) returns (saved: bool)
      requires Valid() && line.assetId in assets
      modifies assets.Values
      ensures var s := old(Snapshot())[line.assetId];
        && (saved <==> s.stock + line.quantity >= 0)
        && Snapshot() == old(Snapshot())[line.assetId :=
             AssetState(if saved then s.stock + line.quantity else s.stock, s.history + [line.price])]
    {
      var asset := assets[line.assetId];
      ghost var before := Snapshot();
      asset.AddPrice(line.price);
      saved := asset.UpdateStock(line.quantity);
      ghost var after := before[line.assetId := AssetState(asset.stock, before[line.assetId].history + [line.price])];
      forall i | i in assets
        ensures Snapshot()[i] == after[i]
      {
        if i != line.assetId {
          assert assets[i].id != asset.id;
        }
      }
      assert Snapshot() == after;
    }

    /** One pass of the import loop on `line`, for record `t`, when the
        lines before it left the outcome `prev`. */
    method ImportStep(line: ImportLine, t: int, ghost prev: Outcome<ImportItem>, ghost base: seq<ImportItem>,
                      ghost firstItemId: int) returns (error: Option<CommitError>)
      requires Valid() && t < imports.nextTransId
      requires prev.error.None? && Snapshot() == prev.state
      requires imports.items == base + prev.created && imports.nextItemId == firstItemId + |prev.created|
      modifies imports, assets.Values
      ensures Valid()
      ensures imports.records == old(imports.records) && imports.nextTransId == old(imports.nextTransId)
      ensures var next := ImportApply(prev, line, t, firstItemId);
        && error == next.error
        && Snapshot() == next.state
        && imports.items == base + next.created
        && imports.nextItemId == firstItemId + |next.created|
    {
      if line.assetId !in assets {
        return Some(AssetMissing(line.assetId));
      }
      var stocked := Receive(line);
      if !stocked {
        return Some(NegativeStock(line.assetId));
      }
      if line.quantity < 0 {
        return Some(ItemRefused(line.assetId));
      }
      var item := ImportItem(imports.nextItemId, t, line.assetId, line.quantity, line.price, None);
      imports.items := imports.items + [item];
      imports.nextItemId := imports.nextItemId + 1;
      assert imports.items == base + (prev.created + [item]);
      return None;
    }

    /** The loop of the import commit over the draft lines, for record `t`. */
    method ImportLoop(lines: seq<ImportLine>, t: int, ghost start: map<int, AssetState>, ghost firstItemId: int)
      returns (error: Option<CommitError>)
      requires Valid() && t < imports.nextTransId
      requires Snapshot() == start && imports.nextItemId == firstItemId
      modifies imports, assets.Values
      ensures Valid()
      ensures imports.records == old(imports.records) && imports.nextTransId == old(imports.nextTransId)
      ensures var run := ImportRun(start, lines, t, firstItemId);
        && error == run.error
        && Snapshot() == run.state
        && imports.items == old(imports.items) + run.created
        && imports.nextItemId == firstItemId + |run.created|
    {
      ghost var run := Outcome(start, [], None);
      var i := 0;
      while i < |lines|
        invariant 0 <= i <= |lines|
        invariant Valid()
        invariant imports.records == old(imports.records) && imports.nextTransId == old(imports.nextTransId)
        invariant run == ImportPrefix(start, lines, i, t, firstItemId)
        invariant run.error.None? && Snapshot() == run.state
        invariant imports.items == old(imports.items) + run.created
        invariant imports.nextItemId == firstItemId + |run.created|
      {
        var stop := ImportStep(lines[i], t, run, old(imports.items), firstItemId);
        run := ImportApply(run, lines[i], t, firstItemId);
        if stop.Some? {
          ImportPrefixStopped(start, lines, i + 1, t, firstItemId);
          return stop;
        }
        i := i + 1;
      }
      ImportPrefixComplete(start, lines, t, firstItemId);
      return None;
    }

    /** The commit of `import_create`: with a non-empty draft and a valid
        form, the record is saved, then each draft entry in turn appends its
        price to its asset's history, adds its quantity to the stock and
        becomes an item. An entry whose asset is gone, whose negative
        quantity would take the stock below zero, or whose negative quantity
        the item row refuses raises and stops the loop; what was saved stays
        saved and the draft stays. The draft is cleared only when every
        entry went through. */
    method ImportCommit(session: Session, formValid: bool, date: Date) returns (result: CommitResult)
      requires Valid() && session.Valid()
      modifies imports, assets.Values, session
      ensures Valid() && session.Valid()
      ensures session.exportOrder == old(session.exportOrder) && session.exportDraft == old(session.exportDraft)
      ensures old(session.importOrder) == [] || !formValid ==>
        && result == Rejected
        && unchanged(imports) && Snapshot() == old(Snapshot())
        && session.importOrder == old(session.importOrder) && session.importDraft == old(session.importDraft)
      ensures old(session.importOrder) != [] && formValid ==>
        var t := old(imports.nextTransId);
        var run := ImportRun(old(Snapshot()), ImportLinesOf(old(session.importOrder), old(session.importDraft)), t, old(imports.nextItemId));
        && imports.records == old(imports.records) + [ImportRecord(t, date)]
        && imports.nextTransId == t + 1
        && Snapshot() == run.state
        && imports.items == old(imports.items) + run.created
        && imports.nextItemId == old(imports.nextItemId) + |run.created|
        && result == (if run.error.None? then Committed(t) else Failed(t, run.error.value))
        && (run.error.None? ==> session.importOrder == [] && session.importDraft == map[])
        && (run.error.Some? ==>
              session.importOrder == old(session.importOrder) && session.importDraft == old(session.importDraft))
    {
      if session.importOrder == [] || !formValid {
        return Rejected;
      }
      var lines := ImportLinesOf(session.importOrder, session.importDraft);
      ghost var start := Snapshot();
      var t := imports.nextTransId;
      imports.records := imports.records + [ImportRecord(t, date)];
      imports.nextTransId := t + 1;
      var error := ImportLoop(lines, t, start, imports.nextItemId);
      if error.Some? {
        return Failed(t, error.value);
      }
      session.ClearImports();
      return Committed(t);
    }

    /** The asset side of one export line: the stock drops by the quantity
        and the row is saved, which the database refuses when the stock
        would go below zero; `saved` tells which. */
    method Dispatch(line: ExportLine) returns (saved: bool)
      requires Valid() && line.assetId in assets
      modifies assets.Values
      ensures var s := old(Snapshot())[line.assetId];
        && (saved <==> line.quantity <= s.stock)
        && Snapshot() == if saved then old(Snapshot())[line.assetId := AssetState(s.stock - line.quantity, s.history)]
                         else old(Snapshot())
    {
      var asset := assets[line.assetId];
      ghost var before := Snapshot();
      saved := asset.UpdateStock(-line.quantity);
      if saved {
        ghost var after := before[line.assetId := AssetState(before[line.assetId].stock - line.quantity,
                                                             before[line.assetId].history)];
        forall i | i in assets
          ensures Snapshot()[i] == after[i]
        {
          if i != line.assetId {
            assert assets[i].id != asset.id;
          }
        }
        assert Snapshot() == after;
      } else {
        assert Snapshot() == before;
      }
    }

    /** One pass of the export loop on `line`, for record `t`. */
    method ExportStep(line: ExportLine, t: int, ghost prev: Outcome<ExportItem>, ghost base: seq<ExportItem>,
                      ghost firstItemId: int) returns (error: Option<CommitError>)
      requires Valid() && t < exports.nextTransId
      requires prev.error.None? && Snapshot() == prev.state
      requires exports.items == base + prev.created && exports.nextItemId == firstItemId + |prev.created|
      modifies exports, assets.Values
      ensures Valid()
      ensures exports.records == old(exports.records) && exports.nextTransId == old(exports.nextTransId)
      ensures var next := ExportApply(prev, line, t, firstItemId);
        && error == next.error
        && Snapshot() == next.state
        && exports.items == base + next.created
        && exports.nextItemId == firstItemId + |next.created|
    {
      if line.assetId !in assets {
        return Some(AssetMissing(line.assetId));
      }
      var saved := Dispatch(line);
      if !saved {
        return Some(NegativeStock(line.assetId));
      }
      if line.quantity < 0 {
        return Some(ItemRefused(line.assetId));
      }
      var item := ExportItem(exports.nextItemId, t, line.assetId, line.quantity, None);
      exports.items := exports.items + [item];
      exports.nextItemId := exports.nextItemId + 1;
      assert exports.items == base + (prev.created + [item]);
      return None;
    }

    /** The loop of the export commit over the draft lines, for record `t`. */
    method ExportLoop(lines: seq<ExportLine>, t: int, ghost start: map<int, AssetState>, ghost firstItemId: int)
      returns (error: Option<CommitError>)
      requires Valid() && t < exports.nextTransId
      requires Snapshot() == start && exports.nextItemId == firstItemId
      modifies exports, assets.Values
      ensures Valid()
      ensures exports.records == old(exports.records) && exports.nextTransId == old(exports.nextTransId)
      ensures var run := ExportRun(start, lines, t, firstItemId);
        && error == run.error
        && Snapshot() == run.state
        && exports.items == old(exports.items) + run.created
        && exports.nextItemId == firstItemId + |run.created|
    {
      ghost var run := Outcome(start, [], None);
      var i := 0;
      while i < |lines|
        invariant 0 <= i <= |lines|
        invariant Valid()
        invariant exports.records == old(exports.records) && exports.nextTransId == old(exports.nextTransId)
        invariant run == ExportPrefix(start, lines, i, t, firstItemId)
        invariant run.error.None? && Snapshot() == run.state
        invariant exports.items == old(exports.items) + run.created
        invariant exports.nextItemId == firstItemId + |run.created|
      {
        var stop := ExportStep(lines[i], t, run, old(exports.items), firstItemId);
        run := ExportApply(run, lines[i], t, firstItemId);
        if stop.Some? {
          ExportPrefixStopped(start, lines, i + 1, t, firstItemId);
          return stop;
        }
        i := i + 1;
      }
      ExportPrefixComplete(start, lines, t, firstItemId);
      return None;
    }

    /** `ExportRecordForm.save`: the instance takes the selected entity's
        kind and id, and is stored only when `commit` is set. */
    method SaveExportForm(date: Date, exportType: ExportType, entity: StorageForms.Recipient, commit: bool)
      returns (instance: StorageForms.ExportRecordInstance)
      requires Valid()
      modifies exports
      ensures Valid()
      ensures instance.date == date && instance.exportType == exportType
      ensures instance.entity.kind == entity.kind && instance.entity.id == entity.id
      ensures exports.items == old(exports.items) && exports.nextItemId == old(exports.nextItemId)
      ensures !commit ==> exports.records == old(exports.records) && exports.nextTransId == old(exports.nextTransId)
      ensures commit ==>
        && exports.records == old(exports.records) + [ExportRecord(old(exports.nextTransId), date, exportType, instance.entity)]
        && exports.nextTransId == old(exports.nextTransId) + 1
    {
      instance := StorageForms.SaveInstance(date, exportType, entity);
      if commit {
        exports.records := exports.records + [ExportRecord(exports.nextTransId, date, exportType, instance.entity)];
        exports.nextTransId := exports.nextTransId + 1;
      }
    }

    /** The commit of `export_create` for the export type in the URL. An
        unknown type is redirected away. Otherwise, with a non-empty draft,
        valid other fields and a selected entity, the record is saved with
        that type and entity, then each draft entry in turn subtracts its
        quantity from its asset's stock and becomes an item. Nothing checks
        that the stock suffices or that the quantity is not negative: an
        entry that would take the stock below zero is refused by the
        column's check when the asset is saved, and a negative quantity,
        which raises the stock, is refused when its item row is inserted;
        either stops the loop, as a missing asset does. What was saved stays
        saved and the draft stays. */
    method ExportCommit(session: Session, exportType: string, fieldsValid: bool, date: Date,
                        entity: Option<StorageForms.Recipient>) returns (result: CommitResult)
      requires Valid() && session.Valid()
      modifies exports, assets.Values, session
      ensures Valid() && session.Valid()
      ensures session.importOrder == old(session.importOrder) && session.importDraft == old(session.importDraft)
      ensures var go := StorageForms.ExportTypeFromString(exportType).Some? && old(session.exportOrder) != []
                        && fieldsValid && StorageForms.CleanEntity(entity).Success?;
        && (!go ==>
              && result == Rejected
              && unchanged(exports) && Snapshot() == old(Snapshot())
              && session.exportOrder == old(session.exportOrder) && session.exportDraft == old(session.exportDraft))
        && (go ==>
              var t := old(exports.nextTransId);
              var run := ExportRun(old(Snapshot()), ExportLinesOf(old(session.exportOrder), old(session.exportDraft)), t, old(exports.nextItemId));
              && exports.records == old(exports.records)
                   + [ExportRecord(t, date, StorageForms.ExportTypeFromString(exportType).value,
                                   StorageForms.EntityOf(entity.value))]
              && exports.nextTransId == t + 1
              && Snapshot() == run.state
              && exports.items == old(exports.items) + run.created
              && exports.nextItemId == old(exports.nextItemId) + |run.created|
              && result == (if run.error.None? then Committed(t) else Failed(t, run.error.value))
              && (run.error.None? ==> session.exportOrder == [] && session.exportDraft == map[])
              && (run.error.Some? ==>
                    session.exportOrder == old(session.exportOrder) && session.exportDraft == old(session.exportDraft)))
    {
      var kind := StorageForms.ExportTypeFromString(exportType);
      if kind.None? || session.exportOrder == [] || !fieldsValid || StorageForms.CleanEntity(entity).Failure? {
        return Rejected;
      }
      ghost var start := Snapshot();
      var instance := StorageForms.SaveInstance(date, kind.value, entity.value);
      var t := exports.nextTransId;
      exports.records := exports.records + [ExportRecord(t, instance.date, kind.value, instance.entity)];
      exports.nextTransId := t + 1;
      var lines := ExportLinesOf(session.exportOrder, session.exportDraft);
      var error := ExportLoop(lines, t, start, exports.nextItemId);
      if error.Some? {
        return Failed(t, error.value);
      }
      session.ClearExports();
      return Committed(t);
    }

    /** The return-number allocation and annotation loop of `return_create`:
        the new number is computed over both tables, then each request in
        turn marks the item it names in the chosen table with that number,
        the date read from the clock on that pass (`nows[k]` for request
        `k`), its purpose and (on export items) its condition. A request
        naming no item stops the loop; earlier marks stay saved. */
    method MarkReturned(kind: ReturnKind, requests: seq<Returns.ReturnRequest>, nows: seq<Date>)
      returns (returnId: int, missing: Option<int>)
      requires Valid() && |nows| == |requests|
      modifies imports, exports
      ensures Valid()
      ensures returnId == Returns.NewReturnId(old(exports.items), old(imports.items))
      ensures imports.records == old(imports.records) && exports.records == old(exports.records)
      ensures imports.nextTransId == old(imports.nextTransId) && imports.nextItemId == old(imports.nextItemId)
      ensures exports.nextTransId == old(exports.nextTransId) && exports.nextItemId == old(exports.nextItemId)
      ensures kind == ExportReturn ==>
        var items := old(exports.items);
        var run := Returns.ReturnRun(Returns.ExportIds(items), Returns.ExportMarks(items), requests, nows, |requests|,
                                     returnId, true);
        && missing == run.missing
        && imports.items == old(imports.items)
        && |exports.items| == |items|
        && forall j :: 0 <= j < |items| ==> exports.items[j] == items[j].(returned := run.marks[j])
      ensures kind == ImportReturn ==>
        var items := old(imports.items);
        var run := Returns.ReturnRun(Returns.ImportIds(items), Returns.ImportMarks(items), requests, nows, |requests|,
                                     returnId, false);
        && missing == run.missing
        && exports.items == old(exports.items)
        && |imports.items| == |items|
        && forall j :: 0 <= j < |items| ==> imports.items[j] == items[j].(returned := run.marks[j])
    {
      returnId := Returns.NewReturnId(exports.items, imports.items);
      if kind == ExportReturn {
        missing := MarkExportItems(requests, nows, returnId);
      } else {
        missing := MarkImportItems(requests, nows, returnId);
      }
    }

    method MarkExportItems(requests: seq<Returns.ReturnRequest>, nows: seq<Date>, returnId: int)
      returns (missing: Option<int>)
      requires Valid() && |nows| == |requests|
      modifies exports
      ensures Valid()
      ensures exports.records == old(exports.records)
      ensures exports.nextTransId == old(exports.nextTransId) && exports.nextItemId == old(exports.nextItemId)
      ensures var items := old(exports.items);
        var run := Returns.ReturnRun(Returns.ExportIds(items), Returns.ExportMarks(items), requests, nows, |requests|,
                                     returnId, true);
        && missing == run.missing
        && |exports.items| == |items|
        && forall j :: 0 <= j < |items| ==> exports.items[j] == items[j].(returned := run.marks[j])
    {
      var items := exports.items;
      var ids, marks0 := Returns.ExportIds(items), Returns.ExportMarks(items);
      var marks := marks0;
      var i := 0;
      while i < |requests|
        invariant 0 <= i <= |requests| && |marks| == |items|
        invariant exports.records == old(exports.records)
        invariant exports.nextTransId == old(exports.nextTransId) && exports.nextItemId == old(exports.nextItemId)
        invariant Returns.ReturnRun(ids, marks0, requests, nows, i, returnId, true) == Returns.ReturnOutcome(marks, None)
        invariant exports.items == WithExportMarks(items, marks)
      {
        var q := requests[i];
        if q.itemId !in ids {
          Returns.ReturnRunSticky(ids, marks0, requests, nows, i + 1, |requests|, returnId, true);
          return Some(q.itemId);
        }
        marks := Returns.ReturnApply(ids, marks, q, returnId, nows[i], true);
        exports.items := WithExportMarks(items, marks);
        i := i + 1;
      }
      return None;
    }

    method MarkImportItems(requests: seq<Returns.ReturnRequest>, nows: seq<Date>, returnId: int)
      returns (missing: Option<int>)
      requires Valid() && |nows| == |requests|
      modifies imports
      ensures Valid()
      ensures imports.records == old(imports.records)
      ensures imports.nextTransId == old(imports.nextTransId) && imports.nextItemId == old(imports.nextItemId)
      ensures var items := old(imports.items);
        var run := Returns.ReturnRun(Returns.ImportIds(items), Returns.ImportMarks(items), requests, nows, |requests|,
                                     returnId, false);
        && missing == run.missing
        && |imports.items| == |items|
        && forall j :: 0 <= j < |items| ==> imports.items[j] == items[j].(returned := run.marks[j])
    {
      var items := imports.items;
      var ids, marks0 := Returns.ImportIds(items), Returns.ImportMarks(items);
      var marks := marks0;
      var i := 0;
      while i < |requests|
        invariant 0 <= i <= |requests| && |marks| == |items|
        invariant imports.records == old(imports.records)
        invariant imports.nextTransId == old(imports.nextTransId) && imports.nextItemId == old(imports.nextItemId)
        invariant Returns.ReturnRun(ids, marks0, requests, nows, i, returnId, false) == Returns.ReturnOutcome(marks, None)
        invariant imports.items == WithImportMarks(items, marks)
      {
        var q := requests[i];
        if q.itemId !in ids {
          Returns.ReturnRunSticky(ids, marks0, requests, nows, i + 1, |requests|, returnId, false);
          return Some(q.itemId);
        }
        marks := Returns.ReturnApply(ids, marks, q, returnId, nows[i], false);
        imports.items := WithImportMarks(items, marks);
        i := i + 1;
      }
      return None;
    }
  }

  /** `items` with their return marks replaced by `marks`; one version per
      item table, as the two tables are different types. */
  function WithExportMarks(items: seq<ExportItem>, marks: seq<Option<ReturnMark>>): (r: seq<ExportItem>)
    requires |marks| == |items|
    ensures |r| == |items| && forall j :: 0 <= j < |items| ==> r[j] == items[j].(returned := marks[j])
  {
    seq(|items|, j requires 0 <= j < |items| => items[j].(returned := marks[j]))
  }

  function WithImportMarks(items: seq<ImportItem>, marks: seq<Option<ReturnMark>>): (r: seq<ImportItem>)
    requires |marks| == |items|
    ensures |r| == |items| && forall j :: 0 <= j < |items| ==> r[j] == items[j].(returned := marks[j])
  {
    seq(|items|, j requires 0 <= j < |items| => items[j].(returned := marks[j]))
  }
}
