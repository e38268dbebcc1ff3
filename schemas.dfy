/**
 * The invoice record and its line items, and how the record is validated when it is
 * built from a parsed JSON dict (`InvoiceSchema(**data)`) and serialised back as the
 * response body.
 */
module Schemas {
  import opened Wrappers
  import opened JsonValues

  datatype InvoiceItem = InvoiceItem(description: string, quantity: real, unitPrice: real, total: real)

  datatype InvoiceRecord = InvoiceRecord(
    docNumber: string,
    supplier: string,
    businessUnit: Option<string>,
    items: seq<InvoiceItem>,
    subtotal: real,
    taxAmount: real,
    totalAmount: real)

  /** One step of an error location: a dict key or a list position. */
  datatype LocPart = Key(name: string) | Index(index: nat)

  datatype ErrorType =
    | Missing     // a required field is absent
    | StringType  // a str was expected
    | FloatType   // a number was expected
    | ListType    // a list was expected
    | ModelType   // a dict was expected (a line item)

  datatype FieldError = FieldError(loc: seq<LocPart>, kind: ErrorType)

  /** The errors of a nested value, re-rooted under `prefix`. */
  function Under(prefix: seq<LocPart>, errors: seq<FieldError>): (r: seq<FieldError>)
    ensures |r| == |errors|
  {
    seq(|errors|, i requires 0 <= i < |errors| => FieldError(prefix + errors[i].loc, errors[i].kind))
  }

  function ErrorsOf<T>(r: Result<T, seq<FieldError>>): seq<FieldError>
  {
    if r.Failure? then r.error else []
  }

  /** A required `str` field. */
  function StringField(fields: map<string, Json>, key: string): (r: Result<string, seq<FieldError>>)
    ensures r.Success? <==> key in fields && fields[key].Str?
    ensures r.Failure? ==> r.error != []
  {
    if key !in fields then Failure([FieldError([Key(key)], Missing)])
    else if fields[key].Str? then Success(fields[key].text)
    else Failure([FieldError([Key(key)], StringType)])
  }

  /** A `float` in lax mode takes an int or a float, and a bool as 1.0 or 0.0. */
  function AsFloat(value: Json): (r: Option<real>)
    ensures r.Some? <==> value.Num? || value.Bool?
    ensures value.Num? ==> r == Some(value.number)
    ensures value.Bool? ==> r == Some(if value.boolean then 1.0 else 0.0)
  {
    match value
    case Num(x) => Some(x)
    case Bool(b) => Some(if b then 1.0 else 0.0)
    case _ => None
  }

  /** A required `float` field. */
  function FloatField(fields: map<string, Json>, key: string): (r: Result<real, seq<FieldError>>)
    ensures r.Success? <==> key in fields && AsFloat(fields[key]).Some?
    ensures r.Failure? ==> r.error != []
  {
    if key !in fields then Failure([FieldError([Key(key)], Missing)])
    else match AsFloat(fields[key])
      case Some(x) => Success(x)
      case None => Failure([FieldError([Key(key)], FloatType)])
  }

  /** An `Optional[str]` field defaulting to None: absent and null both give None. */
  function OptionalStringField(fields: map<string, Json>, key: string): (r: Result<Option<string>, seq<FieldError>>)
    ensures key !in fields ==> r == Success(None)
    ensures r.Failure? ==> r.error != []
  {
    if key !in fields then Success(None)
    else match fields[key]
      case Null => Success(None)
      case Str(text) => Success(Some(text))
      case _ => Failure([FieldError([Key(key)], StringType)])
  }

  /** One entry of `items`: a dict with the four required item fields; extra keys are ignored. */
  function ValidateItem(value: Json): (r: Result<InvoiceItem, seq<FieldError>>)
    ensures r.Success? <==>
      && value.Obj?
      && "description" in value.fields && value.fields["description"].Str?
      && "quantity" in value.fields && AsFloat(value.fields["quantity"]).Some?
      && "unit_price" in value.fields && AsFloat(value.fields["unit_price"]).Some?
      && "total" in value.fields && AsFloat(value.fields["total"]).Some?
    ensures r.Success? ==>
      && value.fields["description"] == Str(r.value.description)
      && AsFloat(value.fields["quantity"]) == Some(r.value.quantity)
      && AsFloat(value.fields["unit_price"]) == Some(r.value.unitPrice)
      && AsFloat(value.fields["total"]) == Some(r.value.total)
    ensures r.Failure? ==> r.error != []
  {
    if !value.Obj? then Failure([FieldError([], ModelType)])
    else
      var fields := value.fields;
      var description := StringField(fields, "description");
      var quantity := FloatField(fields, "quantity");
      var unitPrice := FloatField(fields, "unit_price");
      var total := FloatField(fields, "total");
      if description.Success? && quantity.Success? && unitPrice.Success? && total.Success? then
        Success(InvoiceItem(description.value, quantity.value, unitPrice.value, total.value))
      else
        Failure(ErrorsOf(description) + ErrorsOf(quantity) + ErrorsOf(unitPrice) + ErrorsOf(total))
  }

  /**
   * Every entry is validated on its own; the list is accepted exactly when every
   * entry is, and then holds the validated entries in order.
   */
  function ValidateItems(elems: seq<Json>): (r: Result<seq<InvoiceItem>, seq<FieldError>>)
    ensures r.Success? <==> forall i :: 0 <= i < |elems| ==> ValidateItem(elems[i]).Success?
    ensures r.Success? ==> |r.value| == |elems|
    ensures r.Success? ==> forall i :: 0 <= i < |elems| ==> ValidateItem(elems[i]) == Success(r.value[i])
    ensures r.Failure? ==> r.error != []
    decreases |elems|
  {
    if elems == [] then Success([])
    else
      var n := |elems| - 1;
      var init := ValidateItems(elems[..n]);
      var last := ValidateItem(elems[n]);
      if init.Success? && last.Success? then Success(init.value + [last.value])
      else Failure(ErrorsOf(init) + Under([Index(n)], ErrorsOf(last)))
  }

  /** `List[InvoiceItem]` with `default_factory=list`: absent gives the empty list. */
  function ItemsField(fields: map<string, Json>): (r: Result<seq<InvoiceItem>, seq<FieldError>>)
    ensures "items" !in fields ==> r == Success([])
    ensures r.Failure? ==> r.error != []
  {
    if "items" !in fields then Success([])
    else match fields["items"]
      case Arr(elems) =>
        (match ValidateItems(elems)
         case Success(items) => Success(items)
         case Failure(errors) => Failure(Under([Key("items")], errors)))
      case _ => Failure([FieldError([Key("items")], ListType)])
  }

  const FieldNames: set<string> :=
    {"doc_number", "supplier", "business_unit", "items", "subtotal", "tax_amount", "total_amount"}

  /**
   * `InvoiceSchema(**fields)`: every field is validated and all errors are reported
   * together, in field order; keys that are not fields are ignored.
   */
  function ValidateInvoice(fields: map<string, Json>): (r: Result<InvoiceRecord, seq<FieldError>>)
    ensures r.Success? <==>
      && "doc_number" in fields && fields["doc_number"].Str?
      && "supplier" in fields && fields["supplier"].Str?
      && ("business_unit" !in fields || fields["business_unit"].Null? || fields["business_unit"].Str?)
      && ("items" !in fields ||
          (fields["items"].Arr? &&
           forall i :: 0 <= i < |fields["items"].elems| ==> ValidateItem(fields["items"].elems[i]).Success?))
      && "subtotal" in fields && AsFloat(fields["subtotal"]).Some?
      && "tax_amount" in fields && AsFloat(fields["tax_amount"]).Some?
      && "total_amount" in fields && AsFloat(fields["total_amount"]).Some?
    ensures r.Failure? ==> r.error != []
  {
    var docNumber := StringField(fields, "doc_number");
    var supplier := StringField(fields, "supplier");
    var businessUnit := OptionalStringField(fields, "business_unit");
    var items := ItemsField(fields);
    var subtotal := FloatField(fields, "subtotal");
    var taxAmount := FloatField(fields, "tax_amount");
    var totalAmount := FloatField(fields, "total_amount");
    if docNumber.Success? && supplier.Success? && businessUnit.Success? && items.Success?
       && subtotal.Success? && taxAmount.Success? && totalAmount.Success?
    then
      Success(InvoiceRecord(docNumber.value, supplier.value, businessUnit.value, items.value,
                            subtotal.value, taxAmount.value, totalAmount.value))
    else
      Failure(ErrorsOf(docNumber) + ErrorsOf(supplier) + ErrorsOf(businessUnit) + ErrorsOf(items)
              + ErrorsOf(subtotal) + ErrorsOf(taxAmount) + ErrorsOf(totalAmount))
  }

  /** A missing required field fails validation and is reported as missing at its own key. */
  lemma RequiredFieldsEnforced(fields: map<string, Json>)
    ensures "doc_number" !in fields ==>
      ValidateInvoice(fields).Failure? && FieldError([Key("doc_number")], Missing) in ValidateInvoice(fields).error
    ensures "supplier" !in fields ==>
      ValidateInvoice(fields).Failure? && FieldError([Key("supplier")], Missing) in ValidateInvoice(fields).error
    ensures "subtotal" !in fields ==>
      ValidateInvoice(fields).Failure? && FieldError([Key("subtotal")], Missing) in ValidateInvoice(fields).error
    ensures "tax_amount" !in fields ==>
      ValidateInvoice(fields).Failure? && FieldError([Key("tax_amount")], Missing) in ValidateInvoice(fields).error
    ensures "total_amount" !in fields ==>
      ValidateInvoice(fields).Failure? && FieldError([Key("total_amount")], Missing) in ValidateInvoice(fields).error
  {
  }

  /** A line item lacking any of its four fields is rejected: a corollary of `ValidateItem`'s contract. */
  lemma ItemFieldsRequired(fields: map<string, Json>)
    ensures ("description" !in fields || "quantity" !in fields || "unit_price" !in fields || "total" !in fields)
      ==> ValidateItem(Obj(fields)).Failure?
  {
  }

  /**
   * A validated record carries exactly the values found under its keys, with the
   * defaults where the optional fields were absent.
   */
  lemma ValidatedFieldsCopied(fields: map<string, Json>)
    requires ValidateInvoice(fields).Success?
    ensures var r := ValidateInvoice(fields).value;
      && fields["doc_number"] == Str(r.docNumber)
      && fields["supplier"] == Str(r.supplier)
      && AsFloat(fields["subtotal"]) == Some(r.subtotal)
      && AsFloat(fields["tax_amount"]) == Some(r.taxAmount)
      && AsFloat(fields["total_amount"]) == Some(r.totalAmount)
      && ("business_unit" !in fields ==> r.businessUnit == None)
      && ("business_unit" in fields ==> fields["business_unit"].Null? || fields["business_unit"].Str?)
      && ("business_unit" in fields && fields["business_unit"].Null? ==> r.businessUnit == None)
      && ("business_unit" in fields && fields["business_unit"].Str? ==>
            r.businessUnit == Some(fields["business_unit"].text))
      && ("items" !in fields ==> r.items == [])
      && ("items" in fields ==> fields["items"].Arr? && ValidateItems(fields["items"].elems) == Success(r.items))
  {
  }

  /**
   * Dropping `business_unit` or `items` from a valid dict keeps it valid, with None
   * and the empty list in their place.
   */
  lemma OptionalFieldsDefault(fields: map<string, Json>)
    requires ValidateInvoice(fields).Success?
    ensures ValidateInvoice(fields - {"business_unit"})
         == Success(ValidateInvoice(fields).value.(businessUnit := None))
    ensures ValidateInvoice(fields - {"items"})
         == Success(ValidateInvoice(fields).value.(items := []))
  {
    var without := fields - {"business_unit"};
    assert StringField(without, "doc_number") == StringField(fields, "doc_number");
    assert StringField(without, "supplier") == StringField(fields, "supplier");
    assert OptionalStringField(without, "business_unit") == Success(None);
    assert ItemsField(without) == ItemsField(fields);
    assert FloatField(without, "subtotal") == FloatField(fields, "subtotal");
    assert FloatField(without, "tax_amount") == FloatField(fields, "tax_amount");
    assert FloatField(without, "total_amount") == FloatField(fields, "total_amount");
    var noItems := fields - {"items"};
    assert StringField(noItems, "doc_number") == StringField(fields, "doc_number");
    assert StringField(noItems, "supplier") == StringField(fields, "supplier");
    assert OptionalStringField(noItems, "business_unit") == OptionalStringField(fields, "business_unit");
    assert ItemsField(noItems) == Success([]);
    assert FloatField(noItems, "subtotal") == FloatField(fields, "subtotal");
    assert FloatField(noItems, "tax_amount") == FloatField(fields, "tax_amount");
    assert FloatField(noItems, "total_amount") == FloatField(fields, "total_amount");
  }

  /** Keys that name no field have no influence on validation. */
  lemma ExtraKeysIgnored(fields: map<string, Json>, key: string, value: Json)
    requires key !in FieldNames
    ensures ValidateInvoice(fields[key := value]) == ValidateInvoice(fields)
  {
    var more := fields[key := value];
    assert StringField(more, "doc_number") == StringField(fields, "doc_number");
    assert StringField(more, "supplier") == StringField(fields, "supplier");
    assert OptionalStringField(more, "business_unit") == OptionalStringField(fields, "business_unit");
    assert ItemsField(more) == ItemsField(fields);
    assert FloatField(more, "subtotal") == FloatField(fields, "subtotal");
    assert FloatField(more, "tax_amount") == FloatField(fields, "tax_amount");
    assert FloatField(more, "total_amount") == FloatField(fields, "total_amount");
  }

  function ItemToJson(item: InvoiceItem): Json
  {
    Obj(map["description" := Str(item.description), "quantity" := Num(item.quantity),
            "unit_price" := Num(item.unitPrice), "total" := Num(item.total)])
  }

  function ItemsToJson(items: seq<InvoiceItem>): (r: seq<Json>)
    ensures |r| == |items| && forall i :: 0 <= i < |items| ==> r[i] == ItemToJson(items[i])
  {
    seq(|items|, i requires 0 <= i < |items| => ItemToJson(items[i]))
  }

  /**
   * The JSON body a record is serialised to: one key per schema field and no other,
   * numbers as numbers, and `business_unit` None as null.
   */
  function RecordToJson(record: InvoiceRecord): (r: map<string, Json>)
    ensures r.Keys == FieldNames
    ensures r["business_unit"] == Null <==> record.businessUnit == None
    ensures r["subtotal"] == Num(record.subtotal) && r["tax_amount"] == Num(record.taxAmount)
    ensures r["total_amount"] == Num(record.totalAmount)
  {
    map["doc_number" := Str(record.docNumber),
        "supplier" := Str(record.supplier),
        "business_unit" := (match record.businessUnit case None => Null case Some(unit) => Str(unit)),
        "items" := Arr(ItemsToJson(record.items)),
        "subtotal" := Num(record.subtotal),
        "tax_amount" := Num(record.taxAmount),
        "total_amount" := Num(record.totalAmount)]
  }

  /** A serialised line item validates back to itself. */
  lemma ItemRoundTrip(item: InvoiceItem)
    ensures ValidateItem(ItemToJson(item)) == Success(item)
  {
  }

  /** A serialised list of line items validates back to the same list. */
  lemma ItemsRoundTrip(items: seq<InvoiceItem>)
    ensures ValidateItems(ItemsToJson(items)) == Success(items)
  {
    var elems := ItemsToJson(items);
    forall i | 0 <= i < |items| ensures ValidateItem(elems[i]) == Success(items[i]) {
      ItemRoundTrip(items[i]);
    }
    var r := ValidateItems(elems);
    assert r.Success?;
    assert r.value == items;
  }

  /**
   * Every record survives serialisation and re-validation unchanged. In particular
   * no relation between quantities, unit prices, totals and the subtotal is checked.
   */
  lemma RecordRoundTrip(record: InvoiceRecord)
    ensures ValidateInvoice(RecordToJson(record)) == Success(record)
  {
    var fields := RecordToJson(record);
    ItemsRoundTrip(record.items);
    assert fields["items"] == Arr(ItemsToJson(record.items));
    assert ItemsField(fields) == Success(record.items);
    assert StringField(fields, "doc_number") == Success(record.docNumber);
    assert StringField(fields, "supplier") == Success(record.supplier);
    assert OptionalStringField(fields, "business_unit") == Success(record.businessUnit);
    assert FloatField(fields, "subtotal") == Success(record.subtotal);
    assert FloatField(fields, "tax_amount") == Success(record.taxAmount);
    assert FloatField(fields, "total_amount") == Success(record.totalAmount);
  }
}
