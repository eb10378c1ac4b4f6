/** The transaction entry form (components/CreateTransactionModal.tsx): the
    status a fresh form starts with, and what submitting it does: the checks
    that reject it, the payload built for each transaction type, and which
    handler receives it. */
module TransactionForm {
  import opened Ledger
  import opened Credits

  datatype TransactionType = InvoiceTx | ExpenseTx | PayableTx | CreditNoteTx

  /** `getDefaultStatus` */
  function DefaultStatus(t: TransactionType): string {
    match t
    case InvoiceTx => "sent"
    case ExpenseTx => "paid"
    case PayableTx => "draft"
    case CreditNoteTx => "draft"
  }

  /** The default of an invoice, expense and payable is a status of that
      record type (sent, paid, draft); the credit-note default "draft" is
      none of the credit-note statuses, in particular not "applied". */
  lemma DefaultStatusesAreRecordStatuses()
    ensures DefaultStatus(InvoiceTx) == StatusName(FinancialStatus.Sent)
    ensures DefaultStatus(ExpenseTx) == ExpenseStatusName(ExpenseStatus.Paid)
    ensures DefaultStatus(PayableTx) == PayableStatusName(PayableStatus.Draft)
    ensures forall s :: CreditNoteStatusName(s) != DefaultStatus(CreditNoteTx)
  {
  }

  /** The form fields; `amount` is the number the amount text parses to. */
  datatype Form = Form(
    clientName: string,
    vendorName: string,
    clientId: string,
    customId: Option<string>,
    category: string,
    expType: ExpenseType,
    amount: real,
    date: string,
    dueDate: string,
    projectId: string,
    status: string,
    reason: string,
    invoiceId: string,
    description: string)

  /** The object handed to the submit or update handler: the common part
      first, then the object a transaction type replaces it with. */
  datatype Payload =
    | Base(amount: real, date: string, status: string)
    | InvoicePayload(amount: real, date: string, status: string, clientName: string, projectId: string,
                     clientId: string, customId: Option<string>)
    | ExpensePayload(amount: real, date: string, status: string, category: string, kind: ExpenseType,
                     projectId: string)
    | PayablePayload(amount: real, date: string, status: string, vendorName: string, dueDate: string,
                     description: string, projectId: string)
    | CreditNotePayload(amount: real, date: string, status: string, reason: string, projectId: string,
                        invoiceId: string)

  datatype SubmitError = NonPositiveAmount | MissingProject | MissingInvoice | ExceedsInvoice(invoiceTotal: real)

  /** What a submit does: an error shown on the form, or the payload passed
      to `onUpdate` (with the edited record's id) or to `onSubmit`. */
  datatype Outcome = Rejected(error: SubmitError) | Updated(id: string, payload: Payload) | Created(payload: Payload)

  /** `invoices.find(i => i.id === id)` */
  function FindInvoice(invoices: seq<Invoice>, id: string): (r: Option<Invoice>)
    ensures r.Some? ==> r.value in invoices && r.value.id == id
    ensures r.None? ==> forall i :: 0 <= i < |invoices| ==> invoices[i].id != id
    decreases |invoices|
  {
    if invoices == [] then None
    else if invoices[0].id == id then Some(invoices[0])
    else FindInvoice(invoices[1..], id)
  }

  /** The payload a type builds from the form. */
  function PayloadOf(t: TransactionType, form: Form): Payload {
    match t
    case InvoiceTx =>
      InvoicePayload(form.amount, form.date, form.status, form.clientName, form.projectId,
                     if form.clientId == "" then "c-gen" else form.clientId, form.customId)
    case ExpenseTx =>
      ExpensePayload(form.amount, form.date, form.status, form.category, form.expType, form.projectId)
    case PayableTx =>
      PayablePayload(form.amount, form.date, form.status, form.vendorName, form.dueDate, form.description,
                     form.projectId)
    case CreditNoteTx =>
      CreditNotePayload(form.amount, form.date, if form.status == "" then "applied" else form.status,
                        form.reason, form.projectId, form.invoiceId)
  }

  /** The credit-note checks, in order. */
  function CreditNoteError(form: Form, invoices: seq<Invoice>): Option<SubmitError> {
    if form.projectId == "" then Some(MissingProject)
    else if form.invoiceId == "" then Some(MissingInvoice)
    else
      var selected := FindInvoice(invoices, form.invoiceId);
      if selected.Some? && form.amount > selected.value.amount then Some(ExceedsInvoice(selected.value.amount))
      else None
  }

  /** The outcome of a submit. */
  function Submission(t: TransactionType, form: Form, invoices: seq<Invoice>, editId: Option<string>,
                      hasUpdate: bool): Outcome {
    if form.amount <= 0.0 then Rejected(NonPositiveAmount)
    else if t == CreditNoteTx && CreditNoteError(form, invoices).Some? then Rejected(CreditNoteError(form, invoices).value)
    else if editId.Some? && hasUpdate then Updated(editId.value, PayloadOf(t, form))
    else Created(PayloadOf(t, form))
  }

  /** `handleSubmit`: the amount check, the common payload, the per-type
      payload with the credit-note checks on the way, and the handler
      call. */
  method HandleSubmit(t: TransactionType, form: Form, invoices: seq<Invoice>, editId: Option<string>,
                      hasUpdate: bool) returns (outcome: Outcome)
    ensures outcome == Submission(t, form, invoices, editId, hasUpdate)
  {
    if form.amount <= 0.0 {
      return Rejected(NonPositiveAmount);
    }
    var payload := Base(form.amount, form.date, form.status);
    if t == InvoiceTx {
      payload := InvoicePayload(payload.amount, payload.date, payload.status, form.clientName, form.projectId,
                                if form.clientId == "" then "c-gen" else form.clientId, form.customId);
    } else if t == ExpenseTx {
      payload := ExpensePayload(payload.amount, payload.date, payload.status, form.category, form.expType,
                                form.projectId);
    } else if t == PayableTx {
      payload := PayablePayload(payload.amount, payload.date, payload.status, form.vendorName, form.dueDate,
                                form.description, form.projectId);
    } else if t == CreditNoteTx {
      if form.projectId == "" {
        return Rejected(MissingProject);
      }
      if form.invoiceId == "" {
        return Rejected(MissingInvoice);
      }
      var selected := FindInvoice(invoices, form.invoiceId);
      if selected.Some? && form.amount > selected.value.amount {
        return Rejected(ExceedsInvoice(selected.value.amount));
      }
      payload := CreditNotePayload(form.amount, form.date, if form.status == "" then "applied" else form.status,
                                   form.reason, form.projectId, form.invoiceId);
    }
    if editId.Some? && hasUpdate {
      outcome := Updated(editId.value, payload);
    } else {
      outcome := Created(payload);
    }
  }

  predicate Accepted(o: Outcome) {
    !o.Rejected?
  }

  /** A non-positive amount is rejected, whatever the type and the other
      fields, and it is the only reason for that error. */
  lemma AmountCheckedFirst(t: TransactionType, form: Form, invoices: seq<Invoice>, editId: Option<string>,
                           hasUpdate: bool)
    ensures Submission(t, form, invoices, editId, hasUpdate) == Rejected(NonPositiveAmount) <==> form.amount <= 0.0
    ensures form.amount <= 0.0 ==> !Accepted(Submission(t, form, invoices, editId, hasUpdate))
  {
  }

  /** For a credit note with a positive amount: a missing project is
      reported first, then a missing invoice, then an amount above the
      total of the selected invoice (checked only when that invoice is
      found); only other types skip these checks. */
  lemma CreditNoteChecksInOrder(form: Form, invoices: seq<Invoice>, editId: Option<string>, hasUpdate: bool)
    requires form.amount > 0.0
    ensures var o := Submission(CreditNoteTx, form, invoices, editId, hasUpdate);
      var selected := FindInvoice(invoices, form.invoiceId);
      && (form.projectId == "" ==> o == Rejected(MissingProject))
      && (form.projectId != "" && form.invoiceId == "" ==> o == Rejected(MissingInvoice))
      && (form.projectId != "" && form.invoiceId != "" && selected.Some? && form.amount > selected.value.amount ==>
            o == Rejected(ExceedsInvoice(selected.value.amount)))
      && (Accepted(o) <==> form.projectId != "" && form.invoiceId != "" &&
                            (selected.Some? ==> form.amount <= selected.value.amount))
    ensures forall t :: t != CreditNoteTx ==> Accepted(Submission(t, form, invoices, editId, hasUpdate))
  {
  }

  /** An accepted credit note has a positive amount, names a project and an
      invoice, and does not exceed the first invoice with that id, when
      there is one. Only the one note is checked: notes already applied to
      the invoice are not counted. */
  lemma AcceptedCreditNoteFitsInvoice(form: Form, invoices: seq<Invoice>, editId: Option<string>, hasUpdate: bool)
    requires Accepted(Submission(CreditNoteTx, form, invoices, editId, hasUpdate))
    ensures form.amount > 0.0 && form.projectId != "" && form.invoiceId != ""
    ensures forall i :: 0 <= i < |invoices| && invoices[i].id == form.invoiceId &&
                        (forall j :: 0 <= j < i ==> invoices[j].id != form.invoiceId) ==>
              form.amount <= invoices[i].amount
  {
    forall i | 0 <= i < |invoices| && invoices[i].id == form.invoiceId &&
               (forall j :: 0 <= j < i ==> invoices[j].id != form.invoiceId)
      ensures form.amount <= invoices[i].amount
    {
      FindFirst(invoices, form.invoiceId, i);
    }
  }

  /** `find` returns the first invoice with the id. */
  lemma {:induction false} FindFirst(invoices: seq<Invoice>, id: string, i: int)
    requires 0 <= i < |invoices| && invoices[i].id == id
    requires forall j :: 0 <= j < i ==> invoices[j].id != id
    ensures FindInvoice(invoices, id) == Some(invoices[i])
    decreases i
  {
    if i > 0 {
      FindFirst(invoices[1..], id, i - 1);
    }
  }

  /** Every accepted payload carries the amount, the date and the form
      status (a credit note's empty status becoming "applied"); an invoice
      carries a client id ("c-gen" when the form has none), an expense its
      type from the type field, a payable its due date, and a credit note
      exactly amount, date, status, reason, project and invoice. */
  lemma PayloadContents(t: TransactionType, form: Form, invoices: seq<Invoice>, editId: Option<string>,
                        hasUpdate: bool)
    requires Accepted(Submission(t, form, invoices, editId, hasUpdate))
    ensures var p := Submission(t, form, invoices, editId, hasUpdate).payload;
      && !p.Base?
      && p.amount == form.amount && p.date == form.date
      && (t != CreditNoteTx ==> p.status == form.status)
      && (t == InvoiceTx ==> p.InvoicePayload? && p.clientName == form.clientName && p.projectId == form.projectId
                             && p.clientId != "" && (form.clientId != "" ==> p.clientId == form.clientId))
      && (t == ExpenseTx ==> p.ExpensePayload? && p.kind == form.expType && p.category == form.category
                             && p.projectId == form.projectId)
      && (t == PayableTx ==> p.PayablePayload? && p.dueDate == form.dueDate && p.vendorName == form.vendorName
                             && p.projectId == form.projectId)
      && (t == CreditNoteTx ==>
            p == CreditNotePayload(form.amount, form.date, if form.status == "" then "applied" else form.status,
                                   form.reason, form.projectId, form.invoiceId))
  {
  }

  /** Exactly one handler is called: the update handler, with the edited
      record's id, when editing and one is given, and the submit handler
      otherwise. */
  lemma HandlerChoice(t: TransactionType, form: Form, invoices: seq<Invoice>, editId: Option<string>, hasUpdate: bool)
    ensures var o := Submission(t, form, invoices, editId, hasUpdate);
      && (o.Updated? <==> Accepted(o) && editId.Some? && hasUpdate)
      && (o.Created? <==> Accepted(o) && !(editId.Some? && hasUpdate))
      && (o.Updated? ==> o.id == editId.value)
  {
  }

  /** A fresh credit-note form starts as "draft", so its payload is
      submitted as "draft" rather than "applied": the "applied" fallback
      never fires for it, and such a note does not reduce revenue until its
      status is changed. */
  lemma FreshCreditNoteIsDraft(form: Form, invoices: seq<Invoice>, editId: Option<string>, hasUpdate: bool)
    requires form.status == DefaultStatus(CreditNoteTx)
    requires Accepted(Submission(CreditNoteTx, form, invoices, editId, hasUpdate))
    ensures Submission(CreditNoteTx, form, invoices, editId, hasUpdate).payload.status == "draft"
    ensures Submission(CreditNoteTx, form, invoices, editId, hasUpdate).payload.status
            != CreditNoteStatusName(CreditNoteStatus.Applied)
  {
  }

  /** Two notes of 60 against a paid invoice of 100 both pass the form,
      together crediting 120; once applied, the engine clamps the invoice's
      net revenue at zero instead of letting it go negative. */
  lemma OverCreditingPassesTheForm()
    ensures var inv := Invoice("i1", "Acme", "p1", "Website", 100.0, "2024-05-01", FinancialStatus.Paid);
      var form := Form("", "", "", None, "", ExpenseType.Variable, 60.0, "2024-05-10", "2024-05-10", "p1",
                       "applied", "", "i1", "");
      var note := CreditNote("c1", "i1", "p1", 60.0, None, CreditNoteStatus.Applied);
      && Accepted(Submission(CreditNoteTx, form, [inv], None, false))
      && AppliedCredit([note, note], "i1") == 120.0
      && NetRevenue(inv, CreditMap([note, note])) == 0.0
  {
    var inv := Invoice("i1", "Acme", "p1", "Website", 100.0, "2024-05-01", FinancialStatus.Paid);
    var note := CreditNote("c1", "i1", "p1", 60.0, None, CreditNoteStatus.Applied);
    assert [note, note][..1] == [note];
    assert [note][..0] == [];
    assert CountsAgainst(note, "i1");
    assert AppliedCredit([note], "i1") == 60.0;
    assert AppliedCredit([note, note], "i1") == 120.0;
    CreditMapIsAppliedSum([note, note], "i1");
  }
}
