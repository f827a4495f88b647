/** The form rules of storage/forms.py that decide what a user may submit:
    the recipient field of the export-record form, its `clean` and `save`,
    the uniqueness check on category names, the bounds of the report year,
    and the assets an export item may name. */
module StorageForms {
  import opened Wrappers
  import opened StorageModels
  import opened Ledger
  import CoreForms

  /** The `export_type` value stored for each type. */
  function ExportTypeName(t: ExportType): string
  {
    match t
    case Consume => "Consume"
    case Personal => "Personal"
    case Department => "Department"
    case Loan => "Loan"
  }

  /** The export type a string names, if any. */
  function ExportTypeFromString(s: string): Option<ExportType>
  {
    if s == "Consume" then Some(Consume)
    else if s == "Personal" then Some(Personal)
    else if s == "Department" then Some(Department)
    else if s == "Loan" then Some(Loan)
    else None
  }

  /** The names and the export types correspond one to one. */
  lemma ExportTypeNames(s: string, t: ExportType)
    ensures ExportTypeFromString(ExportTypeName(t)) == Some(t)
    ensures ExportTypeFromString(s) == Some(t) <==> s == ExportTypeName(t)
  {
  }

  /** The model an export type's recipient is chosen from. */
  function RecipientKindFor(t: ExportType): (r: RecipientKind)
    ensures r == EmployeeKind <==> t == Personal
    ensures r == SubAffiliateKind <==> t == Loan
    ensures r == DepartmentKind <==> t == Consume || t == Department
  {
    match t
    case Consume => DepartmentKind
    case Personal => EmployeeKind
    case Department => DepartmentKind
    case Loan => SubAffiliateKind
  }

  /** The first entry shown in the recipient list of each kind. */
  function PlaceholderFor(kind: RecipientKind): (r: string)
    ensures |r| > 0
  {
    match kind
    case DepartmentKind => "الادارة او المكتب"
    case EmployeeKind => "اسم الموظف"
    case SubAffiliateKind => "الجهة المستفيدة"
  }

  /** Each kind of recipient has its own placeholder, so the placeholder
      tells which list is shown. */
  lemma PlaceholderNamesKind(k: RecipientKind, l: RecipientKind)
    ensures PlaceholderFor(k) == PlaceholderFor(l) ==> k == l
  {
  }

  /** A department, employee or sub-affiliate row: its model, its primary
      key and its `str()`. */
  datatype Recipient = Recipient(kind: RecipientKind, id: nat, text: string)

  function EntityOf(r: Recipient): EntityRef
  {
    EntityRef(r.kind, r.id)
  }

  /** The decimal digits of a primary key, as a choice value carries it. */
  function IdText(n: nat): (s: string)
    ensures |s| >= 1
    ensures forall i :: 0 <= i < |s| ==> '0' <= s[i] <= '9'
  {
    var d := [(n % 10) as char + '0'];
    if n < 10 then d else IdText(n / 10) + d
  }

  /** Reading back the digits gives the key: distinct keys have distinct texts. */
  function DigitsValue(s: string): int
  {
    if s == [] then 0 else DigitsValue(s[..|s| - 1]) * 10 + (s[|s| - 1] as int - '0' as int)
  }

  lemma {:induction false} IdTextValue(n: nat)
    ensures DigitsValue(IdText(n)) == n
  {
    var d := [(n % 10) as char + '0'];
    if n >= 10 {
      IdTextValue(n / 10);
      var s := IdText(n / 10) + d;
      assert s[..|s| - 1] == IdText(n / 10);
    } else {
      assert d[..0] == [];
    }
  }

  /** The recipients of one model, in the order the query returns them. */
  function OfKind(directory: seq<Recipient>, kind: RecipientKind): (r: seq<Recipient>)
    ensures forall x :: x in r <==> x in directory && x.kind == kind
  {
    if directory == [] then []
    else
      var last := directory[|directory| - 1];
      assert directory == directory[..|directory| - 1] + [last];
      OfKind(directory[..|directory| - 1], kind) + (if last.kind == kind then [last] else [])
  }

  /** The choices Django lists for a required model choice field: an empty
      entry, then one entry per row. */
  function ModelChoices(rows: seq<Recipient>): (r: seq<CoreForms.Choice>)
    ensures |r| == |rows| + 1
  {
    [CoreForms.Choice("", "---------")] + seq(|rows|, i requires 0 <= i < |rows| => ChoiceOf(rows[i]))
  }

  /** The export-record form: its `entity` field with the model its rows
      come from, and the `export_type` field's initial value and widget. */
  class ExportRecordForm {
    const entity: CoreForms.ChoiceField
    var entityKind: Option<RecipientKind>
    var exportTypeInitial: Option<string>
    var exportTypeHidden: bool

    /** `__init__`: with an export type, the recipient list is set for it,
        and the `export_type` field takes it as initial value and is hidden;
        without one (`None` or empty), both fields are left as declared. */
    constructor (exportType: Option<string>, directory: seq<Recipient>)
      ensures exportType.None? || exportType.value == "" ==>
        entityKind.None? && entity.choices == [] && exportTypeInitial.None? && !exportTypeHidden
      ensures exportType.Some? && exportType.value != "" ==>
        && exportTypeInitial == exportType && exportTypeHidden
        && (ExportTypeFromString(exportType.value).None? ==> entityKind.None? && entity.choices == [])
        && (ExportTypeFromString(exportType.value).Some? ==>
              var kind := RecipientKindFor(ExportTypeFromString(exportType.value).value);
              entityKind == Some(kind)
              && entity.choices == ModelChoices(OfKind(directory, kind))[0 := CoreForms.Choice("", PlaceholderFor(kind))])
    {
      entity := new CoreForms.ChoiceField([]);
      entityKind := None;
      exportTypeInitial := None;
      exportTypeHidden := false;
      new;
      if exportType.Some? && exportType.value != "" {
        SetEntityQueryset(exportType.value, directory);
        exportTypeInitial := exportType;
        exportTypeHidden := true;
      }
    }

    /** `_set_entity_queryset`: each export type lists the rows of its
        recipient model behind its placeholder; any other string changes nothing. */
    method SetEntityQueryset(exportType: string, directory: seq<Recipient>)
      modifies this, entity
      ensures exportTypeInitial == old(exportTypeInitial) && exportTypeHidden == old(exportTypeHidden)
      ensures ExportTypeFromString(exportType).None? ==>
        entityKind == old(entityKind) && entity.choices == old(entity.choices)
      ensures ExportTypeFromString(exportType).Some? ==>
        var kind := RecipientKindFor(ExportTypeFromString(exportType).value);
        entityKind == Some(kind)
        && entity.choices == ModelChoices(OfKind(directory, kind))[0 := CoreForms.Choice("", PlaceholderFor(kind))]
    {
      var kind: RecipientKind;
      if exportType == "Consume" {
        kind := DepartmentKind;
      } else if exportType == "Personal" {
        kind := EmployeeKind;
      } else if exportType == "Department" {
        kind := DepartmentKind;
      } else if exportType == "Loan" {
        kind := SubAffiliateKind;
      } else {
        return;
      }
      entityKind := Some(kind);
      entity.choices := ModelChoices(OfKind(directory, kind));
      var raised := entity.SetFirstChoice(PlaceholderFor(kind));
    }
  }

  function ChoiceOf(x: Recipient): CoreForms.Choice
  {
    CoreForms.Choice(IdText(x.id), x.text)
  }

  /** After the placeholder, the recipient list shows exactly the rows of
      the export type's model. */
  lemma RecipientChoices(directory: seq<Recipient>, t: ExportType)
    ensures var kind := RecipientKindFor(t);
      var choices := ModelChoices(OfKind(directory, kind))[0 := CoreForms.Choice("", PlaceholderFor(kind))];
      && choices[0] == CoreForms.Choice("", PlaceholderFor(kind))
      && (forall x :: x in directory && x.kind == kind ==> ChoiceOf(x) in choices[1..])
      && (forall c :: c in choices[1..] ==> exists x :: x in directory && x.kind == kind && c == ChoiceOf(x))
  {
    var kind := RecipientKindFor(t);
    var rows := OfKind(directory, kind);
    var choices := ModelChoices(rows)[0 := CoreForms.Choice("", PlaceholderFor(kind))];
    forall x | x in directory && x.kind == kind
      ensures ChoiceOf(x) in choices[1..]
    {
      var i :| 0 <= i < |rows| && rows[i] == x;
      assert choices[1..][i] == ChoiceOf(x);
    }
    forall c | c in choices[1..]
      ensures exists x :: x in directory && x.kind == kind && c == ChoiceOf(x)
    {
      var i :| 0 <= i < |choices[1..]| && choices[1..][i] == c;
      assert rows[i] in rows;
      assert c == ChoiceOf(rows[i]);
    }
  }

  /** `clean`: the form is invalid unless a recipient is selected. */
  const EntityError := "Please select a valid entity based on the export type."

  function CleanEntity(entity: Option<Recipient>): (r: Result<Recipient, string>)
    ensures r.Success? <==> entity.Some?
    ensures r.Success? ==> r.value == entity.value
    ensures r.Failure? ==> r.error == EntityError
  {
    if entity.None? then Failure(EntityError) else Success(entity.value)
  }

  /** The fields `save` fills in before the row is written: the form's date
      and export type, and the recipient's model and primary key. */
  datatype ExportRecordInstance = ExportRecordInstance(date: Date, exportType: ExportType, entity: EntityRef)

  function SaveInstance(date: Date, exportType: ExportType, entity: Recipient): (r: ExportRecordInstance)
    ensures r.date == date && r.exportType == exportType
    ensures r.entity.kind == entity.kind && r.entity.id == entity.id
  {
    ExportRecordInstance(date, exportType, EntityOf(entity))
  }

  /** The row a stored (`entity_type`, `entity_id`) pair designates. */
  function Resolve(directory: seq<Recipient>, ref: EntityRef): Option<Recipient>
  {
    if directory == [] then None
    else if EntityOf(directory[0]) == ref then Some(directory[0])
    else Resolve(directory[1..], ref)
  }

  /** What `save` stores designates the selected recipient again. */
  lemma {:induction false} SavedEntityResolves(directory: seq<Recipient>, date: Date, exportType: ExportType, entity: Recipient)
    requires entity in directory
    requires forall j, k :: 0 <= j < k < |directory| ==> EntityOf(directory[j]) != EntityOf(directory[k])
    ensures Resolve(directory, SaveInstance(date, exportType, entity).entity) == Some(entity)
    decreases |directory|
  {
    if directory[0] != entity {
      assert EntityOf(directory[0]) != EntityOf(entity) by {
        var k :| 0 <= k < |directory| && directory[k] == entity;
      }
      SavedEntityResolves(directory[1..], date, exportType, entity);
    }
  }

  /** `AssetCategoryForm.clean_name`: a name some category already has is
      refused, the record's own name included when it is edited. */
  const CategoryNameError := "A category with this name already exists."

  function CleanCategoryName(name: string, existing: seq<string>): (r: Result<string, string>)
    ensures r.Success? <==> name !in existing
    ensures r.Success? ==> r.value == name
    ensures r.Failure? ==> r.error == CategoryNameError
  {
    if name in existing then Failure(CategoryNameError) else Success(name)
  }

  /** Creating a category through the form. */
  function AddCategory(existing: seq<string>, name: string): seq<string>
  {
    match CleanCategoryName(name, existing)
    case Success(n) => existing + [n]
    case Failure(_) => existing
  }

  predicate DistinctNames(names: seq<string>)
  {
    forall j, k :: 0 <= j < k < |names| ==> names[j] != names[k]
  }

  /** Categories created through the form never share a name. */
  lemma {:induction false} CategoryNamesStayDistinct(existing: seq<string>, names: seq<string>)
    requires DistinctNames(existing)
    ensures DistinctNames(AddAll(existing, names))
    decreases |names|
  {
    if names != [] {
      var next := AddCategory(existing, names[0]);
      assert DistinctNames(next);
      CategoryNamesStayDistinct(next, names[1..]);
    }
  }

  function AddAll(existing: seq<string>, names: seq<string>): seq<string>
    decreases |names|
  {
    if names == [] then existing else AddAll(AddCategory(existing, names[0]), names[1..])
  }

  /** `ReportForm.year`: a required whole number from 2011 to the year the
      server process started in. */
  const FirstReportYear := 2011

  datatype YearError = Missing | BelowMinimum | AboveMaximum

  function CleanYear(year: Option<int>, currentYear: int): (r: Result<int, YearError>)
    ensures r.Success? <==> year.Some? && FirstReportYear <= year.value <= currentYear
    ensures r.Success? ==> r.value == year.value
  {
    if year.None? then Failure(Missing)
    else if year.value < FirstReportYear then Failure(BelowMinimum)
    else if year.value > currentYear then Failure(AboveMaximum)
    else Success(year.value)
  }

  /** The initial year shown: the year before the current one. */
  function InitialYear(currentYear: int): int
  {
    currentYear - 1
  }

  /** The initial year is itself accepted exactly when the current year is 2012 or later. */
  lemma InitialYearAccepted(currentYear: int)
    ensures CleanYear(Some(InitialYear(currentYear)), currentYear).Success? <==> currentYear >= FirstReportYear + 1
  {
  }

  /** `ExportItemForm`: the assets an export item may name, those with stock left. */
  function ExportableAssets(state: map<int, AssetState>): (r: set<int>)
    ensures forall id :: id in r <==> id in state && state[id].stock > 0
  {
    set id | id in state && state[id].stock > 0
  }

  /** Each asset a completed import brings a positive quantity of becomes
      exportable. */
  lemma ImportedAssetsExportable(state: map<int, AssetState>, lines: seq<ImportLine>, record: int, firstItemId: int)
    requires DistinctAssets(lines)
    requires forall j :: 0 <= j < |lines| ==> lines[j].assetId in state && lines[j].quantity >= 0
    ensures forall j :: 0 <= j < |lines| && lines[j].quantity > 0 ==>
      lines[j].assetId in ExportableAssets(ImportRun(state, lines, record, firstItemId).state)
  {
    ImportRunDrafted(state, lines, record, firstItemId);
  }
}
