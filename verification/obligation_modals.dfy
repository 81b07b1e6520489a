/**
 * The create and edit obligation dialogs: the validation gate, the request
 * bodies (an omitted versus a cleared due date), and the dialogs' state.
 */
module ObligationModals {
  import opened Common
  import opened JsNumbers
  import opened Forms
  import opened Obligations
  import JsText

  /** The text fields both dialogs have. */
  datatype ObligationForm = ObligationForm(
    title: string,
    totalAmount: NumField,
    dueDate: string,
    description: string)

  const BlankForm: ObligationForm := ObligationForm("", Empty, "", "")

  /** The create dialog's initial currency. */
  const DefaultCurrency := "CRC"

  datatype CreateObligationRequest = CreateObligationRequest(
    title: string,
    totalAmount: JsNumber,
    currency: string,
    dueDate: Field<string>,
    description: Field<string>)

  /** The update body has no currency property: the currency cannot be changed. */
  datatype UpdateObligationRequest = UpdateObligationRequest(
    title: string,
    totalAmount: JsNumber,
    dueDate: Field<string>,
    description: Field<string>)

  datatype Key = TitleKey | TotalAmountKey

  const TitleRequired := "Título es requerido"
  const AmountPositive := "Monto debe ser mayor a 0"

  /** `validate` of both dialogs: a title that trims to something and a positive total. */
  function Validate(f: ObligationForm): (errs: Errors<Key>)
    ensures TitleKey in errs <==> JsText.IsBlank(f.title)
    ensures TotalAmountKey in errs <==> AmountRejected(f.totalAmount)
    ensures TitleKey in errs ==> errs[TitleKey] == TitleRequired
    ensures TotalAmountKey in errs ==> errs[TotalAmountKey] == AmountPositive
  {
    var e1 := Check(map[], JsText.Trim(f.title) == [], TitleKey, TitleRequired);
    Check(e1, AmountRejected(f.totalAmount), TotalAmountKey, AmountPositive)
  }

  /** A request is emitted exactly when the trimmed title is non-empty and the total is given and positive. */
  lemma Gate(f: ObligationForm)
    ensures Validate(f) == map[] <==> !JsText.IsBlank(f.title) && !AmountRejected(f.totalAmount)
  {
    if Validate(f) != map[] {
      var k :| k in Validate(f);
    }
  }

  /** The create body: `dueDate` only when one is set, description only when it trims to something. */
  function CreateRequest(f: ObligationForm, currency: string): (r: CreateObligationRequest)
    ensures r.title == JsText.Trim(f.title) && r.totalAmount == NumberOf(f.totalAmount) && r.currency == currency
    ensures f.dueDate == "" <==> r.dueDate == Absent
    ensures f.dueDate != "" ==> r.dueDate == Present(f.dueDate)
    ensures r.description == IfTrimmed(f.description)
  {
    CreateObligationRequest(
      JsText.Trim(f.title), NumberOf(f.totalAmount), currency,
      if f.dueDate != "" then Present(f.dueDate) else Absent,
      IfTrimmed(f.description))
  }

  /** The update body: an empty due date is sent as `null`, which removes the due date. */
  function UpdateRequest(f: ObligationForm): (r: UpdateObligationRequest)
    ensures r.title == JsText.Trim(f.title) && r.totalAmount == NumberOf(f.totalAmount)
    ensures f.dueDate == "" <==> r.dueDate == Null
    ensures f.dueDate != "" ==> r.dueDate == Present(f.dueDate)
    ensures r.dueDate != Absent
    ensures r.description == IfTrimmed(f.description)
  {
    UpdateObligationRequest(
      JsText.Trim(f.title), NumberOf(f.totalAmount),
      if f.dueDate != "" then Present(f.dueDate) else Null,
      IfTrimmed(f.description))
  }

  /** The edit dialog's fields, filled in from the obligation (`null` due date and description become ""). */
  function FormOf(o: ObligationResponse): (f: ObligationForm)
    ensures f.title == o.title && f.totalAmount == Filled(Num(o.totalAmount))
    ensures f.dueDate == OrEmpty(o.dueDate) && f.description == OrEmpty(o.description)
  {
    ObligationForm(o.title, Filled(Num(o.totalAmount)), OrEmpty(o.dueDate), OrEmpty(o.description))
  }

  /**
   * Saving an untouched obligation with a positive total and a title passes
   * the gate and sends its total and due date back (`null` when it had none).
   */
  lemma EditRoundTrip(o: ObligationResponse)
    requires o.totalAmount > 0.0 && !JsText.IsBlank(o.title)
    requires o.dueDate != Some("")
    ensures Validate(FormOf(o)) == map[]
    ensures UpdateRequest(FormOf(o)).totalAmount == Num(o.totalAmount)
    ensures UpdateRequest(FormOf(o)).dueDate == if o.dueDate.Some? then Present(o.dueDate.value) else Null
  {
    Gate(FormOf(o));
  }

  /** The create dialog's state. */
  class CreateObligationModal {
    var form: ObligationForm
    var currency: string
    var errors: Errors<Key>

    constructor()
      ensures form == BlankForm && currency == DefaultCurrency && errors == map[]
    {
      form := BlankForm;
      currency := DefaultCurrency;
      errors := map[];
    }

    method HandleSubmit() returns (sent: Option<CreateObligationRequest>)
      modifies this
      ensures Validate(old(form)) != map[] ==>
        sent == None && errors == Validate(old(form)) && form == old(form) && currency == old(currency)
      ensures Validate(old(form)) == map[] ==>
        sent == Some(CreateRequest(old(form), old(currency)))
        && form == BlankForm && currency == DefaultCurrency && errors == map[]
    {
      var errs := Validate(form);
      if errs != map[] {
        errors := errs;
        return None;
      }
      errors := map[];
      sent := Some(CreateRequest(form, currency));
      ResetAndClose();
    }

    /** Back to currency "CRC", empty text fields and no errors. */
    method ResetAndClose()
      modifies this
      ensures form == BlankForm && currency == DefaultCurrency && errors == map[]
    {
      form := BlankForm;
      currency := DefaultCurrency;
      errors := map[];
    }

    method ChangeTitle(v: string)
      modifies this
      ensures form == old(form).(title := v) && errors == ClearError(old(errors), TitleKey)
      ensures currency == old(currency)
    {
      form := form.(title := v);
      errors := ClearError(errors, TitleKey);
    }

    method ChangeTotalAmount(v: NumField)
      modifies this
      ensures form == old(form).(totalAmount := v) && errors == ClearError(old(errors), TotalAmountKey)
      ensures currency == old(currency)
    {
      form := form.(totalAmount := v);
      errors := ClearError(errors, TotalAmountKey);
    }
  }

  /** The edit dialog's state. */
  class EditObligationModal {
    var form: ObligationForm
    var initialized: bool
    var errors: Errors<Key>

    constructor()
      ensures form == BlankForm && !initialized && errors == map[]
    {
      form := BlankForm;
      initialized := false;
      errors := map[];
    }

    /** The render-time initialisation: only the first time an obligation is present. */
    method Sync(obligation: Option<ObligationResponse>)
      modifies this
      ensures obligation.Some? && !old(initialized) ==> form == FormOf(obligation.value) && initialized
      ensures !(obligation.Some? && !old(initialized)) ==> form == old(form) && initialized == old(initialized)
      ensures errors == old(errors)
    {
      if obligation.Some? && !initialized {
        form := FormOf(obligation.value);
        initialized := true;
      }
    }

    method HandleSubmit(obligation: Option<ObligationResponse>) returns (sent: Option<(string, UpdateObligationRequest)>)
      modifies this
      ensures obligation.None? ==> sent == None && form == old(form) && errors == old(errors) && initialized == old(initialized)
      ensures obligation.Some? && Validate(old(form)) != map[] ==>
        sent == None && errors == Validate(old(form)) && form == old(form) && initialized == old(initialized)
      ensures obligation.Some? && Validate(old(form)) == map[] ==>
        sent == Some((obligation.value.id, UpdateRequest(old(form)))) && form == BlankForm && !initialized && errors == map[]
    {
      if obligation.None? {
        return None;
      }
      var errs := Validate(form);
      if errs != map[] {
        errors := errs;
        return None;
      }
      errors := map[];
      sent := Some((obligation.value.id, UpdateRequest(form)));
      ResetAndClose();
    }

    method ResetAndClose()
      modifies this
      ensures form == BlankForm && !initialized && errors == map[]
    {
      form := BlankForm;
      initialized := false;
      errors := map[];
    }

    method ChangeTitle(v: string)
      modifies this
      ensures form == old(form).(title := v) && errors == ClearError(old(errors), TitleKey)
      ensures initialized == old(initialized)
    {
      form := form.(title := v);
      errors := ClearError(errors, TitleKey);
    }

    method ChangeTotalAmount(v: NumField)
      modifies this
      ensures form == old(form).(totalAmount := v) && errors == ClearError(old(errors), TotalAmountKey)
      ensures initialized == old(initialized)
    {
      form := form.(totalAmount := v);
      errors := ClearError(errors, TotalAmountKey);
    }
  }
}
