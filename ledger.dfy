/** What the commit loops of `import_create` and `export_create`
    (storage/views.py) do to the asset rows, as functions of the rows' values.
    Each loop works through the session draft in its order; a step that
    raises stops the loop, and since nothing is wrapped in a transaction the
    steps already taken stay saved. */
module Ledger {
  import opened Wrappers
  import opened StorageModels

  /** The two columns of an asset row that commits change. */
  datatype AssetState = AssetState(stock: nat, history: seq<real>)

  /** One entry of the import draft, in draft order: the asset id (the
      draft's key), the quantity and the unit price. The draft keeps the
      quantity as typed, so it may be negative. */
  datatype ImportLine = ImportLine(assetId: int, quantity: int, price: real)

  /** One entry of the export draft, in draft order; the quantity may be negative. */
  datatype ExportLine = ExportLine(key: int, assetId: int, quantity: int, price: real)

  /** Why a commit loop stopped: `Asset.objects.get` raised `DoesNotExist`;
      saving a stock below zero violated the column's `CHECK (stock >= 0)`;
      or creating the item row violated its `CHECK (quantity >= 0)`. */
  datatype CommitError = AssetMissing(assetId: int) | NegativeStock(assetId: int) | ItemRefused(assetId: int)

  /** The asset rows after a loop, the item rows it created, and the error
      that stopped it, if any. */
  datatype Outcome<T> = Outcome(state: map<int, AssetState>, created: seq<T>, error: Option<CommitError>)

  /** One line of the import commit loop, after the lines before it left
      `prev`: fetch the asset, append the price to its history (saved at
      once), add the quantity to its stock and save, and create an import
      item. Each of the two saves and the insert can be refused. */
  function ImportApply(prev: Outcome<ImportItem>, line: ImportLine, record: int, firstItemId: int)
    : Outcome<ImportItem>
  {
    if prev.error.Some? then prev
    else if line.assetId !in prev.state then prev.(error := Some(AssetMissing(line.assetId)))
    else
      var s := prev.state[line.assetId];
      if s.stock + line.quantity < 0 then
        Outcome(prev.state[line.assetId := AssetState(s.stock, s.history + [line.price])], prev.created,
                Some(NegativeStock(line.assetId)))
      else
        var next := prev.state[line.assetId := AssetState(s.stock + line.quantity, s.history + [line.price])];
        if line.quantity < 0 then Outcome(next, prev.created, Some(ItemRefused(line.assetId)))
        else
          Outcome(next,
                  prev.created + [ImportItem(firstItemId + |prev.created|, record, line.assetId,
                                             line.quantity, line.price, None)],
                  None)
  }

  /** The import commit loop over the lines, in order. */
  function ImportRun(state: map<int, AssetState>, lines: seq<ImportLine>, record: int, firstItemId: int)
    : (r: Outcome<ImportItem>)
    ensures r.state.Keys == state.Keys
    ensures |r.created| <= |lines|
    ensures r.error.None? ==> |r.created| == |lines|
  {
    if lines == [] then Outcome(state, [], None)
    else ImportApply(ImportRun(state, lines[..|lines| - 1], record, firstItemId), lines[|lines| - 1], record, firstItemId)
  }

  /** One line of the export commit loop: fetch the asset, subtract the
      quantity from its stock and save, then create an export item. The save
      and the insert can each be refused. */
  function ExportApply(prev: Outcome<ExportItem>, line: ExportLine, record: int, firstItemId: int)
    : Outcome<ExportItem>
  {
    if prev.error.Some? then prev
    else if line.assetId !in prev.state then prev.(error := Some(AssetMissing(line.assetId)))
    else
      var s := prev.state[line.assetId];
      if s.stock < line.quantity then prev.(error := Some(NegativeStock(line.assetId)))
      else
        var next := prev.state[line.assetId := AssetState(s.stock - line.quantity, s.history)];
        if line.quantity < 0 then Outcome(next, prev.created, Some(ItemRefused(line.assetId)))
        else
          Outcome(next,
                  prev.created + [ExportItem(firstItemId + |prev.created|, record, line.assetId, line.quantity, None)],
                  None)
  }

  /** The export commit loop over the lines, in order. */
  function ExportRun(state: map<int, AssetState>, lines: seq<ExportLine>, record: int, firstItemId: int)
    : (r: Outcome<ExportItem>)
    ensures r.state.Keys == state.Keys
    ensures |r.created| <= |lines|
    ensures r.error.None? ==> |r.created| == |lines|
  {
    if lines == [] then Outcome(state, [], None)
    else ExportApply(ExportRun(state, lines[..|lines| - 1], record, firstItemId), lines[|lines| - 1], record, firstItemId)
  }

  /** The total quantity the lines take out of asset `assetId`. */
  function Exported(lines: seq<ExportLine>, assetId: int): int
  {
    if lines == [] then 0
    else Exported(lines[..|lines| - 1], assetId)
         + (if lines[|lines| - 1].assetId == assetId then lines[|lines| - 1].quantity else 0)
  }

  predicate DistinctAssets(lines: seq<ImportLine>)
  {
    forall j, k :: 0 <= j < k < |lines| ==> lines[j].assetId != lines[k].assetId
  }

  /** The import loop finishes iff every drafted asset exists and no drafted
      quantity is negative: a negative quantity that the stock absorbs is
      still refused when its item row is inserted. */
  lemma {:induction false} ImportRunSucceeds(state: map<int, AssetState>, lines: seq<ImportLine>, record: int, firstItemId: int)
    ensures ImportRun(state, lines, record, firstItemId).error.None?
        <==> forall j :: 0 <= j < |lines| ==> lines[j].assetId in state && lines[j].quantity >= 0
    decreases |lines|
  {
    if lines != [] {
      var init := lines[..|lines| - 1];
      ImportRunSucceeds(state, init, record, firstItemId);
      assert forall j :: 0 <= j < |init| ==> lines[j] == init[j];
    }
  }

  /** A completed import adds each drafted quantity to its asset's stock and
      appends each drafted price to its history. */
  lemma {:induction false} ImportRunDrafted(state: map<int, AssetState>, lines: seq<ImportLine>, record: int, firstItemId: int)
    requires DistinctAssets(lines)
    requires forall j :: 0 <= j < |lines| ==> lines[j].assetId in state && lines[j].quantity >= 0
    ensures ImportRun(state, lines, record, firstItemId).error.None?
    ensures forall j :: 0 <= j < |lines| ==>
      ImportRun(state, lines, record, firstItemId).state[lines[j].assetId]
        == AssetState(state[lines[j].assetId].stock + lines[j].quantity, state[lines[j].assetId].history + [lines[j].price])
    decreases |lines|
  {
    ImportRunSucceeds(state, lines, record, firstItemId);
    if lines != [] {
      var init := lines[..|lines| - 1];
      var a := lines[|lines| - 1].assetId;
      assert DistinctAssets(init);
      assert forall j :: 0 <= j < |init| ==> init[j] == lines[j];
      ImportRunDrafted(state, init, record, firstItemId);
      ImportRunUntouched(state, init, record, firstItemId, a);
      var prev := ImportRun(state, init, record, firstItemId);
      forall j | 0 <= j < |init|
        ensures init[j].assetId != a
      {
        assert init[j] == lines[j];
      }
      assert prev.state[a] == state[a];
    }
  }

  /** An import leaves every asset it does not draft as it was. */
  lemma {:induction false} ImportRunUntouched(state: map<int, AssetState>, lines: seq<ImportLine>, record: int, firstItemId: int,
                                              assetId: int)
    requires forall j :: 0 <= j < |lines| ==> lines[j].assetId != assetId
    requires assetId in state
    ensures ImportRun(state, lines, record, firstItemId).state[assetId] == state[assetId]
    decreases |lines|
  {
    if lines != [] {
      ImportRunUntouched(state, lines[..|lines| - 1], record, firstItemId, assetId);
    }
  }

  /** Each line of an import becomes one item, numbered from `firstItemId` in
      draft order; only lines with a quantity of zero or more get that far. */
  lemma {:induction false} ImportRunCreated(state: map<int, AssetState>, lines: seq<ImportLine>, record: int, firstItemId: int)
    ensures var r := ImportRun(state, lines, record, firstItemId);
      forall j :: 0 <= j < |r.created| ==>
        && lines[j].quantity >= 0
        && r.created[j] == ImportItem(firstItemId + j, record, lines[j].assetId, lines[j].quantity, lines[j].price, None)
    decreases |lines|
  {
    if lines != [] {
      ImportRunCreated(state, lines[..|lines| - 1], record, firstItemId);
    }
  }

  /** How one import line fails after a successful prefix `prev`, and what
      it saves before failing. */
  lemma ImportApplyFails(prev: Outcome<ImportItem>, line: ImportLine, record: int, firstItemId: int)
    requires prev.error.None?
    requires ImportApply(prev, line, record, firstItemId).error.Some?
    ensures var r := ImportApply(prev, line, record, firstItemId);
      && r.created == prev.created
      && (r.error == Some(AssetMissing(line.assetId)) <==> line.assetId !in prev.state)
      && (r.error == Some(NegativeStock(line.assetId)) <==>
            line.assetId in prev.state && prev.state[line.assetId].stock + line.quantity < 0)
      && (r.error == Some(ItemRefused(line.assetId)) <==>
            line.assetId in prev.state && prev.state[line.assetId].stock + line.quantity >= 0 && line.quantity < 0)
      && (line.assetId !in prev.state ==> r.state == prev.state)
      && (line.assetId in prev.state ==>
            var s := prev.state[line.assetId];
            r.state == prev.state[line.assetId :=
              AssetState(if s.stock + line.quantity < 0 then s.stock else s.stock + line.quantity, s.history + [line.price])])
  {
  }

  /** A stopped import loop stopped at its first failing line; the lines
      before it are saved, as a loop over them alone would have saved them,
      and so is whatever the failing line saved before it failed: its price
      always, its stock change when only the item insert was refused. */
  lemma {:induction false} ImportRunStops(state: map<int, AssetState>, lines: seq<ImportLine>, record: int, firstItemId: int)
    requires ImportRun(state, lines, record, firstItemId).error.Some?
    ensures var r := ImportRun(state, lines, record, firstItemId);
      var n := |r.created|;
      && n < |lines|
      && (forall j :: 0 <= j < n ==> lines[j].assetId in state && lines[j].quantity >= 0)
      && ImportRun(state, lines[..n], record, firstItemId).error.None?
      && r == ImportApply(ImportRun(state, lines[..n], record, firstItemId), lines[n], record, firstItemId)
    decreases |lines|
  {
    var init, line := lines[..|lines| - 1], lines[|lines| - 1];
    var prev := ImportRun(state, init, record, firstItemId);
    var r := ImportApply(prev, line, record, firstItemId);
    assert ImportRun(state, lines, record, firstItemId) == r;
    if prev.error.Some? {
      assert r == prev;
      ImportRunStops(state, init, record, firstItemId);
      var n := |prev.created|;
      assert init[..n] == lines[..n] && init[n] == lines[n];
      assert forall j :: 0 <= j < n ==> lines[j] == init[j];
    } else {
      ImportRunSucceeds(state, init, record, firstItemId);
      var n := |init|;
      assert lines[..n] == init && lines[n] == line;
      assert forall j :: 0 <= j < n ==> lines[j] == init[j];
      ImportApplyFails(prev, line, record, firstItemId);
    }
  }

  /** The export loop finishes iff every drafted asset exists, no drafted
      quantity is negative and no asset is drafted for more than its stock:
      the code checks none of these, but the database refuses the first save
      that would go below zero and the first item row with a negative
      quantity. */
  lemma {:induction false} ExportRunSucceeds(state: map<int, AssetState>, lines: seq<ExportLine>, record: int, firstItemId: int)
    ensures ExportRun(state, lines, record, firstItemId).error.None? <==>
      && (forall j :: 0 <= j < |lines| ==> lines[j].assetId in state && lines[j].quantity >= 0)
      && (forall i :: i in state ==> Exported(lines, i) <= state[i].stock)
    decreases |lines|
  {
    if lines != [] {
      var init, line := lines[..|lines| - 1], lines[|lines| - 1];
      ExportRunSucceeds(state, init, record, firstItemId);
      var prev := ExportRun(state, init, record, firstItemId);
      if prev.error.None? {
        ExportRunSettles(state, init, record, firstItemId);
      }
      var r := ExportApply(prev, line, record, firstItemId);
      assert ExportRun(state, lines, record, firstItemId) == r;
      assert forall j :: 0 <= j < |init| ==> lines[j] == init[j];
      assert forall i :: Exported(lines, i) == Exported(init, i) + (if line.assetId == i then line.quantity else 0);
      if prev.error.Some? {
        assert r == prev;
        if exists j :: 0 <= j < |init| && (init[j].assetId !in state || init[j].quantity < 0) {
          var j :| 0 <= j < |init| && (init[j].assetId !in state || init[j].quantity < 0);
          assert lines[j] == init[j];
        } else if line.quantity < 0 {
          assert lines[|lines| - 1].quantity < 0;
        } else {
          var i :| i in state && Exported(init, i) > state[i].stock;
          assert Exported(lines, i) > state[i].stock;
        }
      } else if line.assetId !in state {
        assert lines[|lines| - 1].assetId !in state;
      } else if prev.state[line.assetId].stock < line.quantity {
        assert Exported(lines, line.assetId) > state[line.assetId].stock;
      } else if line.quantity < 0 {
        assert lines[|lines| - 1].quantity < 0;
      } else {
        forall j | 0 <= j < |lines|
          ensures lines[j].assetId in state && lines[j].quantity >= 0
        {
          if j < |init| {
            assert lines[j] == init[j];
          }
        }
      }
    }
  }

  /** A completed export takes from each asset's stock the total quantity
      drafted for it and leaves its price history as it was. */
  lemma {:induction false} ExportRunSettles(state: map<int, AssetState>, lines: seq<ExportLine>, record: int, firstItemId: int)
    requires ExportRun(state, lines, record, firstItemId).error.None?
    ensures forall i :: i in state ==>
      && Exported(lines, i) <= state[i].stock
      && ExportRun(state, lines, record, firstItemId).state[i] == AssetState(state[i].stock - Exported(lines, i), state[i].history)
    decreases |lines|
  {
    if lines != [] {
      var init, line := lines[..|lines| - 1], lines[|lines| - 1];
      var prev := ExportRun(state, init, record, firstItemId);
      var r := ExportApply(prev, line, record, firstItemId);
      assert ExportRun(state, lines, record, firstItemId) == r;
      assert prev.error.None?;
      ExportRunSettles(state, init, record, firstItemId);
      assert forall i :: Exported(lines, i) == Exported(init, i) + (if line.assetId == i then line.quantity else 0);
    }
  }

  /** The created export items: one per line, numbered from `firstItemId` in
      draft order; only lines with a quantity of zero or more get that far. */
  lemma {:induction false} ExportRunCreated(state: map<int, AssetState>, lines: seq<ExportLine>, record: int, firstItemId: int)
    ensures var r := ExportRun(state, lines, record, firstItemId);
      forall j :: 0 <= j < |r.created| ==>
        && lines[j].quantity >= 0
        && r.created[j] == ExportItem(firstItemId + j, record, lines[j].assetId, lines[j].quantity, None)
    decreases |lines|
  {
    if lines != [] {
      ExportRunCreated(state, lines[..|lines| - 1], record, firstItemId);
    }
  }

  /** How one export line fails after a successful prefix `prev`, and what
      it saves before failing. */
  lemma ExportApplyFails(prev: Outcome<ExportItem>, line: ExportLine, record: int, firstItemId: int)
    requires prev.error.None?
    requires ExportApply(prev, line, record, firstItemId).error.Some?
    ensures var r := ExportApply(prev, line, record, firstItemId);
      && r.created == prev.created
      && (r.error == Some(AssetMissing(line.assetId)) <==> line.assetId !in prev.state)
      && (r.error == Some(NegativeStock(line.assetId)) <==>
            line.assetId in prev.state && prev.state[line.assetId].stock < line.quantity)
      && (r.error == Some(ItemRefused(line.assetId)) <==> line.assetId in prev.state && line.quantity < 0)
      && (line.assetId in prev.state && line.quantity < 0 ==>
            var s := prev.state[line.assetId];
            r.state == prev.state[line.assetId := AssetState(s.stock - line.quantity, s.history)])
      && (line.assetId !in prev.state || line.quantity >= 0 ==> r.state == prev.state)
  {
  }

  /** A stopped export loop stopped at its first failing line; the lines
      before it are saved, as a loop over them alone would have saved them. */
  lemma {:induction false} ExportRunStops(state: map<int, AssetState>, lines: seq<ExportLine>, record: int, firstItemId: int)
    requires ExportRun(state, lines, record, firstItemId).error.Some?
    ensures var r := ExportRun(state, lines, record, firstItemId);
      var n := |r.created|;
      && n < |lines|
      && ExportRun(state, lines[..n], record, firstItemId).error.None?
      && r == ExportApply(ExportRun(state, lines[..n], record, firstItemId), lines[n], record, firstItemId)
    decreases |lines|
  {
    var init, line := lines[..|lines| - 1], lines[|lines| - 1];
    var prev := ExportRun(state, init, record, firstItemId);
    var r := ExportApply(prev, line, record, firstItemId);
    assert ExportRun(state, lines, record, firstItemId) == r;
    if prev.error.Some? {
      assert r == prev;
      ExportRunStops(state, init, record, firstItemId);
      var n := |prev.created|;
      assert init[..n] == lines[..n] && init[n] == lines[n];
    } else {
      ExportApplyFails(prev, line, record, firstItemId);
      var n := |init|;
      assert lines[..n] == init && lines[n] == line;
    }
  }

  /** Once a loop has stopped, the later lines change nothing. */
  lemma {:induction false} ImportRunSticky(state: map<int, AssetState>, lines: seq<ImportLine>, record: int, firstItemId: int, n: nat)
    requires n <= |lines|
    requires ImportRun(state, lines[..n], record, firstItemId).error.Some?
    ensures ImportRun(state, lines, record, firstItemId) == ImportRun(state, lines[..n], record, firstItemId)
    decreases |lines|
  {
    if n < |lines| {
      var init := lines[..|lines| - 1];
      assert init[..n] == lines[..n];
      ImportRunSticky(state, init, record, firstItemId, n);
    } else {
      assert lines[..n] == lines;
    }
  }

  lemma {:induction false} ExportRunSticky(state: map<int, AssetState>, lines: seq<ExportLine>, record: int, firstItemId: int, n: nat)
    requires n <= |lines|
    requires ExportRun(state, lines[..n], record, firstItemId).error.Some?
    ensures ExportRun(state, lines, record, firstItemId) == ExportRun(state, lines[..n], record, firstItemId)
    decreases |lines|
  {
    if n < |lines| {
      var init := lines[..|lines| - 1];
      assert init[..n] == lines[..n];
      ExportRunSticky(state, init, record, firstItemId, n);
    } else {
      assert lines[..n] == lines;
    }
  }

  /** The import loop after its first `n` lines, counted by index. */
  function ImportPrefix(state: map<int, AssetState>, lines: seq<ImportLine>, n: nat, record: int, firstItemId: int)
    : Outcome<ImportItem>
    requires n <= |lines|
  {
    if n == 0 then Outcome(state, [], None)
    else ImportApply(ImportPrefix(state, lines, n - 1, record, firstItemId), lines[n - 1], record, firstItemId)
  }

  lemma {:induction false} ImportPrefixRun(state: map<int, AssetState>, lines: seq<ImportLine>, n: nat, record: int, firstItemId: int)
    requires n <= |lines|
    ensures ImportPrefix(state, lines, n, record, firstItemId) == ImportRun(state, lines[..n], record, firstItemId)
  {
    if n > 0 {
      ImportPrefixRun(state, lines, n - 1, record, firstItemId);
      assert lines[..n][..n - 1] == lines[..n - 1];
    }
  }

  /** The export loop after its first `n` lines, counted by index. */
  function ExportPrefix(state: map<int, AssetState>, lines: seq<ExportLine>, n: nat, record: int, firstItemId: int)
    : Outcome<ExportItem>
    requires n <= |lines|
  {
    if n == 0 then Outcome(state, [], None)
    else ExportApply(ExportPrefix(state, lines, n - 1, record, firstItemId), lines[n - 1], record, firstItemId)
  }

  lemma {:induction false} ExportPrefixRun(state: map<int, AssetState>, lines: seq<ExportLine>, n: nat, record: int, firstItemId: int)
    requires n <= |lines|
    ensures ExportPrefix(state, lines, n, record, firstItemId) == ExportRun(state, lines[..n], record, firstItemId)
  {
    if n > 0 {
      ExportPrefixRun(state, lines, n - 1, record, firstItemId);
      assert lines[..n][..n - 1] == lines[..n - 1];
    }
  }

  /** The import loop over all its lines, counted by index, is `ImportRun`. */
  lemma ImportPrefixComplete(state: map<int, AssetState>, lines: seq<ImportLine>, record: int, firstItemId: int)
    ensures ImportPrefix(state, lines, |lines|, record, firstItemId) == ImportRun(state, lines, record, firstItemId)
  {
    ImportPrefixRun(state, lines, |lines|, record, firstItemId);
    assert lines[..|lines|] == lines;
  }

  /** An import loop that stopped after `n` lines ends there. */
  lemma ImportPrefixStopped(state: map<int, AssetState>, lines: seq<ImportLine>, n: nat, record: int, firstItemId: int)
    requires n <= |lines|
    requires ImportPrefix(state, lines, n, record, firstItemId).error.Some?
    ensures ImportRun(state, lines, record, firstItemId) == ImportPrefix(state, lines, n, record, firstItemId)
  {
    ImportPrefixRun(state, lines, n, record, firstItemId);
    ImportRunSticky(state, lines, record, firstItemId, n);
  }

  /** The export loop over all its lines, counted by index, is `ExportRun`. */
  lemma ExportPrefixComplete(state: map<int, AssetState>, lines: seq<ExportLine>, record: int, firstItemId: int)
    ensures ExportPrefix(state, lines, |lines|, record, firstItemId) == ExportRun(state, lines, record, firstItemId)
  {
    ExportPrefixRun(state, lines, |lines|, record, firstItemId);
    assert lines[..|lines|] == lines;
  }

  /** An export loop that stopped after `n` lines ends there. */
  lemma ExportPrefixStopped(state: map<int, AssetState>, lines: seq<ExportLine>, n: nat, record: int, firstItemId: int)
    requires n <= |lines|
    requires ExportPrefix(state, lines, n, record, firstItemId).error.Some?
    ensures ExportRun(state, lines, record, firstItemId) == ExportPrefix(state, lines, n, record, firstItemId)
  {
    ExportPrefixRun(state, lines, n, record, firstItemId);
    ExportRunSticky(state, lines, record, firstItemId, n);
  }
}
