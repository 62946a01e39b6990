/** The add-transaction form: the first-match validation run when the save
    button is clicked, and the record built from the form when every field
    passes. */
module AddTransaction {
  import opened Model
  import opened Dao
  import opened ViewModel

  /** The amount field as `parseDouble` leaves it: a number, or NaN when the
      text did not parse. */
  datatype Amount = Number(value: real) | NaN

  /** The six values read from the form. */
  datatype Form = Form(
    title: string,
    amount: Amount,
    transactionType: string,
    tag: string,
    date: string,
    note: string)

  datatype Field = TitleField | AmountField | TypeField | TagField | DateField | NoteField

  /** The position of a field in the order the checks run. */
  function Rank(field: Field): nat
  {
    match field
    case TitleField => 0
    case AmountField => 1
    case TypeField => 2
    case TagField => 3
    case DateField => 4
    case NoteField => 5
  }

  /** The check for one field: text fields must be non-empty, the amount must
      have parsed. */
  predicate Passes(form: Form, field: Field)
  {
    match field
    case TitleField => form.title != ""
    case AmountField => form.amount.Number?
    case TypeField => form.transactionType != ""
    case TagField => form.tag != ""
    case DateField => form.date != ""
    case NoteField => form.note != ""
  }

  /** The error shown on a field that fails its check. */
  function ErrorMessage(field: Field): string
  {
    match field
    case TitleField => "Title must not be empty"
    case AmountField => "Amount must not be empty"
    case TypeField => "Transaction type must not be empty"
    case TagField => "Tag must not be empty"
    case DateField => "Date must not be empty"
    case NoteField => "Note must not be empty"
  }

  /** What a click on save does: show one field's error, or insert a record. */
  datatype Outcome = FieldError(field: Field, message: string) | Insert(transaction: Transaction)

  /** The save handler's `when`. The outcome is an insert exactly when all six
      checks pass; otherwise it is the error of the first failing field in the
      order title, amount, type, tag, date, note. An inserted record carries the
      six validated values, with the new row's `id` and `createdAt`. */
  function OnSave(form: Form, id: int, createdAt: int): (r: Outcome)
    ensures r.Insert? <==> forall f :: Passes(form, f)
    ensures r.FieldError? ==> !Passes(form, r.field) && r.message == ErrorMessage(r.field)
    ensures r.FieldError? ==> forall f :: Rank(f) < Rank(r.field) ==> Passes(form, f)
    ensures r.Insert? ==>
      && r.transaction.title == form.title
      && form.amount.Number? && r.transaction.amount == form.amount.value
      && r.transaction.transactionType == form.transactionType
      && r.transaction.tag == form.tag
      && r.transaction.date == form.date
      && r.transaction.note == form.note
      && r.transaction.id == id && r.transaction.createdAt == createdAt
  {
    if form.title == "" then
      assert !Passes(form, TitleField);
      FieldError(TitleField, ErrorMessage(TitleField))
    else if form.amount.NaN? then
      assert !Passes(form, AmountField);
      FieldError(AmountField, ErrorMessage(AmountField))
    else if form.transactionType == "" then
      assert !Passes(form, TypeField);
      FieldError(TypeField, ErrorMessage(TypeField))
    else if form.tag == "" then
      assert !Passes(form, TagField);
      FieldError(TagField, ErrorMessage(TagField))
    else if form.date == "" then
      assert !Passes(form, DateField);
      FieldError(DateField, ErrorMessage(DateField))
    else if form.note == "" then
      assert !Passes(form, NoteField);
      FieldError(NoteField, ErrorMessage(NoteField))
    else Insert(Transaction(form.title, form.amount.value, form.transactionType,
                            form.tag, form.date, form.note, createdAt, id))
  }

  /** An empty title is reported whatever the other fields hold. */
  lemma EmptyTitleRejected(form: Form, id: int, createdAt: int)
    requires form.title == ""
    ensures OnSave(form, id, createdAt) == FieldError(TitleField, "Title must not be empty")
  {
  }

  /** Once the title is there, an amount that did not parse is reported. */
  lemma NaNAmountRejected(form: Form, id: int, createdAt: int)
    requires form.title != "" && form.amount.NaN?
    ensures OnSave(form, id, createdAt) == FieldError(AmountField, "Amount must not be empty")
  {
  }

  /** The click handler: validates, and inserts through the view model only
      when every check passes. `freshId` and `now` stand for the key and the
      timestamp the database and the record's defaults assign. */
  method OnSaveClicked(vm: TransactionViewModel, form: Form, freshId: int, now: int) returns (outcome: Outcome)
    requires freshId !in vm.transactionRepo.db.rows
    modifies vm.transactionRepo.db
    ensures outcome == OnSave(form, freshId, now)
    ensures outcome.Insert? ==>
      vm.transactionRepo.db.rows == old(vm.transactionRepo.db.rows)[freshId := outcome.transaction]
      && |vm.transactionRepo.db.rows| == |old(vm.transactionRepo.db.rows)| + 1
    ensures outcome.FieldError? ==> vm.transactionRepo.db.rows == old(vm.transactionRepo.db.rows)
  {
    outcome := OnSave(form, freshId, now);
    if outcome.Insert? {
      vm.InsertTransaction(outcome.transaction);
    }
  }
}
