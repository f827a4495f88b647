/** The records of storage/models.py: assets, import and export records and
    their items, and the return annotation carried by an item. The rows stand
    for what the database holds; `stock` and item quantities are declared
    non-negative integers there (`PositiveIntegerField`, which PostgreSQL
    enforces with a CHECK constraint), hence `nat`. */
module StorageModels {
  import opened Wrappers
  import Pricing

  /** A calendar date. It is compared as (year, month, day), which is the order
      of Python's `date` objects and of their 'YYYY-MM-DD' text alike. */
  datatype Date = Date(year: int, month: int, day: int)

  predicate DateLe(a: Date, b: Date)
  {
    a.year < b.year || (a.year == b.year && (a.month < b.month || (a.month == b.month && a.day <= b.day)))
  }

  /** The unit of measure choices of an asset. */
  datatype Unit = Piece | Box | Set

  /** The `export_type` choices of an export record. */
  datatype ExportType = Consume | Personal | Department | Loan

  /** The content types an export record's recipient can have. */
  datatype RecipientKind = DepartmentKind | EmployeeKind | SubAffiliateKind

  /** A recipient, as the (`entity_type`, `entity_id`) pair of an export record. */
  datatype EntityRef = EntityRef(kind: RecipientKind, id: nat)

  /** The return fields of an item: `return_id`, `return_at`, `return_purpose`
      and, on export items only, `return_condition`. */
  datatype ReturnMark = ReturnMark(returnId: int, at: Date, purpose: string, condition: Option<string>)

  datatype ImportRecord = ImportRecord(transId: int, date: Date)

  datatype ImportItem = ImportItem(id: int, record: int, assetId: int, quantity: nat, price: real,
                                   returned: Option<ReturnMark>)

  datatype ExportRecord = ExportRecord(transId: int, date: Date, exportType: ExportType, entity: EntityRef)

  datatype ExportItem = ExportItem(id: int, record: int, assetId: int, quantity: nat,
                                   returned: Option<ReturnMark>)

  /** An asset row. The fields that no core operation changes are constants;
      `stock` and `priceHistory` are what imports and exports update. */
  class Asset {
    const id: int
    const categoryName: string
    const name: string
    const brand: string
    const brandEn: string
    const unit: Unit
    var stock: nat
    var priceHistory: seq<real>

    /** A new asset starts with no stock and an empty price history. */
    constructor (id: int, categoryName: string, name: string, brand: string, brandEn: string, unit: Unit)
      ensures this.id == id && this.categoryName == categoryName && this.name == name
      ensures this.brand == brand && this.brandEn == brandEn && this.unit == unit
      ensures stock == 0 && priceHistory == []
    {
      this.id := id;
      this.categoryName := categoryName;
      this.name := name;
      this.brand := brand;
      this.brandEn := brandEn;
      this.unit := unit;
      stock := 0;
      priceHistory := [];
    }

    /** `update_stock`: adds a signed change to the stock and saves. A change
        that would make the stock negative is refused by the database when
        the row is saved, and the row keeps its old stock. */
    method UpdateStock(quantityChange: int) returns (saved: bool)
      modifies this
      ensures saved <==> old(stock) + quantityChange >= 0
      ensures stock == if saved then old(stock) + quantityChange else old(stock)
      ensures priceHistory == old(priceHistory)
    {
      if stock + quantityChange >= 0 {
        stock := stock + quantityChange;
        saved := true;
      } else {
        saved := false;
      }
    }

    /** `add_price`: appends one price to the history and saves. */
    method AddPrice(price: real)
      modifies this
      ensures priceHistory == old(priceHistory) + [price]
      ensures stock == old(stock)
    {
      priceHistory := priceHistory + [price];
    }

    /** `average_price` of this asset. */
    function AveragePrice(): Option<real>
      reads this
    {
      Pricing.AveragePrice(priceHistory)
    }

    /** `median_price` of this asset. */
    function MedianPrice(): Option<real>
      reads this
    {
      Pricing.MedianPrice(priceHistory)
    }
  }
}
