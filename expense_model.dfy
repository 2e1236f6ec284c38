/** The transaction record (`IExpense`) and the document schema (`ExpenseSchema`) of the
    backend model. A transaction is one flat record: a `type` discriminant and the
    optional `savingCategory` and `operation` fields that only savings are meant to use.
    The schema is modelled as the validation that runs when a new document is saved:
    `required` paths, and `enum` lists on the string paths. */
module ExpenseModel {

  import opened Wrappers

  datatype TxType = Expense | Saving | Income

  datatype Operation = Add | Deduct

  /** A calendar date. Only its year and month matter to the ledger; how the client
      parses a date string into one is not modelled. */
  datatype Date = Date(year: int, month: int, day: int)

  /** A stored transaction. The store's `_id` and timestamps are not part of the model. */
  datatype Transaction = Transaction(
    amount: int,
    category: string,
    date: Date,
    description: Option<string>,
    txType: TxType,
    savingCategory: Option<string>,
    operation: Option<Operation>)

  const TYPE_ENUM: seq<string> := ["expense", "saving", "income"]
  const SAVING_CATEGORY_ENUM: seq<string> := ["SIB", "KSFE"]
  const OPERATION_ENUM: seq<string> := ["add", "deduct"]

  function TypeName(t: TxType): (s: string)
    ensures s in TYPE_ENUM
  {
    match t
    case Expense => "expense"
    case Saving => "saving"
    case Income => "income"
  }

  function OperationName(op: Operation): (s: string)
    ensures s in OPERATION_ENUM
  {
    match op
    case Add => "add"
    case Deduct => "deduct"
  }

  /** Reads a `type` string; only the three enumerated names are accepted. */
  function ParseType(s: string): (r: Option<TxType>)
    ensures r.Some? <==> s in TYPE_ENUM
    ensures r.Some? ==> TypeName(r.value) == s
  {
    if s == "expense" then Some(Expense)
    else if s == "saving" then Some(Saving)
    else if s == "income" then Some(Income)
    else None
  }

  /** Reads an `operation` string; only `add` and `deduct` are accepted. */
  function ParseOperation(s: string): (r: Option<Operation>)
    ensures r.Some? <==> s in OPERATION_ENUM
    ensures r.Some? ==> OperationName(r.value) == s
  {
    if s == "add" then Some(Add)
    else if s == "deduct" then Some(Deduct)
    else None
  }

  lemma TypeNameRoundTrip(t: TxType)
    ensures ParseType(TypeName(t)) == Some(t)
  {
  }

  lemma OperationNameRoundTrip(op: Operation)
    ensures ParseOperation(OperationName(op)) == Some(op)
  {
  }

  // ---------------------------------------------------------------------------
  // The schema

  /** A document as it reaches the schema: any path may be missing, and the enumerated
      paths hold whatever string the client sent. Casting of non-numeric amounts and of
      unparsable dates is not modelled: those paths already have their cast types. */
  datatype Document = Document(
    amount: Option<int>,
    category: Option<string>,
    date: Option<Date>,
    description: Option<string>,
    txType: Option<string>,
    savingCategory: Option<string>,
    operation: Option<string>)

  /** One failing path. `path` is the schema's field name (`type` for `txType`). */
  datatype ValidationError = Required(path: string) | NotInEnum(path: string, value: string)

  /** `required: true` on a String path: the value must be there and must not be empty. */
  predicate PresentString(v: Option<string>)
  {
    v.Some? && v.value != ""
  }

  /** An `enum` list without `required`: an absent value passes. */
  predicate InEnumIfPresent(v: Option<string>, allowed: seq<string>)
  {
    v.None? || v.value in allowed
  }

  /** The field constraints of `ExpenseSchema`: `amount`, `category`, `date` and `type`
      are required, `type` is one of three names, `savingCategory` and `operation` are
      optional but enumerated, `description` is optional and free. */
  predicate ValidDocument(doc: Document)
  {
    && doc.amount.Some?
    && PresentString(doc.category)
    && doc.date.Some?
    && PresentString(doc.txType) && doc.txType.value in TYPE_ENUM
    && InEnumIfPresent(doc.savingCategory, SAVING_CATEGORY_ENUM)
    && InEnumIfPresent(doc.operation, OPERATION_ENUM)
  }

  /** The errors that validation reports: at most one per path (a `required` failure
      hides the `enum` check of the same path), in the schema's field order. */
  function SchemaErrors(doc: Document): (errs: seq<ValidationError>)
    ensures errs == [] <==> ValidDocument(doc)
  {
    (if doc.amount.None? then [Required("amount")] else [])
    + (if !PresentString(doc.category) then [Required("category")] else [])
    + (if doc.date.None? then [Required("date")] else [])
    + (if !PresentString(doc.txType) then [Required("type")]
       else if doc.txType.value !in TYPE_ENUM then [NotInEnum("type", doc.txType.value)]
       else [])
    + (if !InEnumIfPresent(doc.savingCategory, SAVING_CATEGORY_ENUM)
       then [NotInEnum("savingCategory", doc.savingCategory.value)] else [])
    + (if !InEnumIfPresent(doc.operation, OPERATION_ENUM)
       then [NotInEnum("operation", doc.operation.value)] else [])
  }

  /** The document the store keeps for a transaction. */
  function ToDocument(t: Transaction): Document
  {
    Document(
      Some(t.amount), Some(t.category), Some(t.date), t.description, Some(TypeName(t.txType)),
      t.savingCategory,
      match t.operation case Some(op) => Some(OperationName(op)) case None => None)
  }

  /** Saving a new document: either every constraint holds and the document becomes a
      transaction that stores back as exactly that document, or the save fails with the
      non-empty list of failing paths. */
  function Validate(doc: Document): (r: Result<Transaction, seq<ValidationError>>)
    ensures r.Ok? <==> ValidDocument(doc)
    ensures r.Ok? ==> ToDocument(r.value) == doc
    ensures r.Err? ==> r.error == SchemaErrors(doc) && r.error != []
  {
    if !ValidDocument(doc) then Err(SchemaErrors(doc))
    else
      var txType := ParseType(doc.txType.value).value;
      var op := match doc.operation
        case Some(s) => Some(ParseOperation(s).value)
        case None => None;
      Ok(Transaction(doc.amount.value, doc.category.value, doc.date.value, doc.description,
                     txType, doc.savingCategory, op))
  }

  /** A transaction the schema accepts back unchanged. */
  predicate Storable(t: Transaction)
  {
    t.category != "" && InEnumIfPresent(t.savingCategory, SAVING_CATEGORY_ENUM)
  }

  /** Storing a transaction and validating the document gives the transaction back
      exactly when it has a non-empty category and a known saving account (if any). */
  lemma ValidateRoundTrip(t: Transaction)
    ensures Validate(ToDocument(t)) == Ok(t) <==> Storable(t)
  {
    var doc := ToDocument(t);
    TypeNameRoundTrip(t.txType);
    if t.operation.Some? {
      OperationNameRoundTrip(t.operation.value);
    }
    if Storable(t) {
      assert ValidDocument(doc);
    }
  }

  /** Each required path is reported when it is missing; a String path also when empty. */
  lemma RequiredPathsReported(doc: Document)
    ensures doc.amount.None? ==> Required("amount") in SchemaErrors(doc)
    ensures !PresentString(doc.category) ==> Required("category") in SchemaErrors(doc)
    ensures doc.date.None? ==> Required("date") in SchemaErrors(doc)
    ensures !PresentString(doc.txType) ==> Required("type") in SchemaErrors(doc)
  {
  }

  /** A value outside an enumerated list is reported with the value that was sent. */
  lemma EnumViolationsReported(doc: Document)
    ensures PresentString(doc.txType) && doc.txType.value !in TYPE_ENUM ==>
              NotInEnum("type", doc.txType.value) in SchemaErrors(doc)
    ensures doc.savingCategory.Some? && doc.savingCategory.value !in SAVING_CATEGORY_ENUM ==>
              NotInEnum("savingCategory", doc.savingCategory.value) in SchemaErrors(doc)
    ensures doc.operation.Some? && doc.operation.value !in OPERATION_ENUM ==>
              NotInEnum("operation", doc.operation.value) in SchemaErrors(doc)
  {
  }

  /** `description` takes no part in validation. */
  lemma DescriptionUnconstrained(doc: Document, d: Option<string>)
    ensures SchemaErrors(doc.(description := d)) == SchemaErrors(doc)
  {
  }

  /** The schema has no cross-field rule: in a valid document the amount may be replaced
      by any number, zero and negative ones included, the type by any allowed type, and
      the operation and `savingCategory` by any allowed value or by none, whatever the
      other fields hold. So an expense may carry an `operation`, a saving may omit it,
      and `savingCategory` need not agree with `category`. */
  lemma LooseRecordsAreValid(doc: Document, amount: int, txType: string,
                             operation: Option<string>, account: Option<string>)
    requires ValidDocument(doc)
    requires txType in TYPE_ENUM
    requires InEnumIfPresent(operation, OPERATION_ENUM)
    requires InEnumIfPresent(account, SAVING_CATEGORY_ENUM)
    ensures ValidDocument(doc.(amount := Some(amount), txType := Some(txType),
                               operation := operation, savingCategory := account))
  {
  }
}
