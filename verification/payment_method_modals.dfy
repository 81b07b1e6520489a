/**
 * The create and edit payment-method dialogs: the 1..255 name gate, the
 * optional bank fields, and the currency that only creation sets.
 */
module PaymentMethodModals {
  import opened Common
  import opened Forms
  import opened Entities
  import JsText

  datatype PaymentMethodForm = PaymentMethodForm(
    name: string,
    kind: PaymentMethodType,
    bankName: string,
    accountNumber: string,
    description: string)

  const BlankForm: PaymentMethodForm := PaymentMethodForm("", Bank, "", "", "")

  /** The create dialog's initial currency. */
  const DefaultCurrency := "USD"

  const NameTooLong := "Máx. 255 caracteres"

  datatype CreatePaymentMethodRequest = CreatePaymentMethodRequest(
    name: string,
    kind: PaymentMethodType,
    currency: string,
    bankName: Field<string>,
    accountNumber: Field<string>,
    description: Field<string>)

  /** The update body has no currency property: the currency is fixed at creation. */
  datatype UpdatePaymentMethodRequest = UpdatePaymentMethodRequest(
    name: string,
    kind: PaymentMethodType,
    bankName: Field<string>,
    accountNumber: Field<string>,
    description: Field<string>)

  /** The label of each kind in the kind selector. */
  function KindLabel(k: PaymentMethodType): string
  {
    match k
    case Bank => "Cuenta bancaria"
    case Cash => "Efectivo"
    case Card => "Tarjeta"
  }

  /** The bank and account inputs are shown for banks and cards only. */
  predicate ShowsBankFields(k: PaymentMethodType)
  {
    k != Cash
  }

  /** The create body: trimmed name, kind, currency, and each optional text only when it trims to something. */
  function CreateRequest(f: PaymentMethodForm, currency: string): (r: CreatePaymentMethodRequest)
    ensures r.name == JsText.Trim(f.name) && r.kind == f.kind && r.currency == currency
    ensures r.bankName == IfTrimmed(f.bankName) && r.accountNumber == IfTrimmed(f.accountNumber)
    ensures r.description == IfTrimmed(f.description)
  {
    CreatePaymentMethodRequest(JsText.Trim(f.name), f.kind, currency,
      IfTrimmed(f.bankName), IfTrimmed(f.accountNumber), IfTrimmed(f.description))
  }

  /** The update body: as the create body, without a currency. */
  function UpdateRequest(f: PaymentMethodForm): (r: UpdatePaymentMethodRequest)
    ensures r.name == JsText.Trim(f.name) && r.kind == f.kind
    ensures r.bankName == IfTrimmed(f.bankName) && r.accountNumber == IfTrimmed(f.accountNumber)
    ensures r.description == IfTrimmed(f.description)
  {
    UpdatePaymentMethodRequest(JsText.Trim(f.name), f.kind,
      IfTrimmed(f.bankName), IfTrimmed(f.accountNumber), IfTrimmed(f.description))
  }

  /** Bank text typed before switching to cash is hidden but still sent. */
  lemma CashStillSendsBankName(f: PaymentMethodForm, currency: string)
    requires f.kind == Cash && !JsText.IsBlank(f.bankName)
    ensures !ShowsBankFields(f.kind)
    ensures CreateRequest(f, currency).bankName == Present(JsText.Trim(f.bankName))
  {
  }

  /** The edit dialog's fields, filled in from the payment method (`null` texts become ""). */
  function FormOf(p: PaymentMethod): (f: PaymentMethodForm)
    ensures f.name == p.name && f.kind == p.kind
    ensures f.bankName == OrEmpty(p.bankName) && f.accountNumber == OrEmpty(p.accountNumber)
    ensures f.description == OrEmpty(p.description)
  {
    PaymentMethodForm(p.name, p.kind, OrEmpty(p.bankName), OrEmpty(p.accountNumber), OrEmpty(p.description))
  }

  /** Saving an untouched payment method keeps its kind and sends no currency, whatever it was. */
  lemma EditRoundTrip(p: PaymentMethod)
    requires p.name != [] && JsText.Trim(p.name) == p.name
    ensures UpdateRequest(FormOf(p)).name == p.name && UpdateRequest(FormOf(p)).kind == p.kind
    ensures p.bankName.Some? && JsText.Trim(p.bankName.value) == p.bankName.value && p.bankName.value != "" ==>
      UpdateRequest(FormOf(p)).bankName == Present(p.bankName.value)
  {
  }

  class CreatePaymentMethodModal {
    var form: PaymentMethodForm
    var currency: string
    var nameError: Option<string>

    constructor()
      ensures form == BlankForm && currency == DefaultCurrency && nameError == None
    {
      form := BlankForm;
      currency := DefaultCurrency;
      nameError := None;
    }

    /** Submitting: a name outside 1..255 shows its message; otherwise the body is returned and the dialog reset. */
    method HandleSubmit() returns (sent: Option<CreatePaymentMethodRequest>)
      modifies this
      ensures var err := NameError(old(form).name, NameTooLong);
        if err.Some? then sent == None && nameError == err && form == old(form) && currency == old(currency)
        else sent == Some(CreateRequest(old(form), old(currency)))
             && form == BlankForm && currency == DefaultCurrency && nameError == None
    {
      var err := NameError(form.name, NameTooLong);
      if err.Some? {
        nameError := err;
        return None;
      }
      nameError := None;
      sent := Some(CreateRequest(form, currency));
      ResetAndClose();
    }

    /** Back to kind "bank", currency "USD", empty text and no error. */
    method ResetAndClose()
      modifies this
      ensures form == BlankForm && currency == DefaultCurrency && nameError == None
    {
      form := BlankForm;
      currency := DefaultCurrency;
      nameError := None;
    }

    method ChangeName(v: string)
      modifies this
      ensures form == old(form).(name := v) && nameError == ClearNameError(old(nameError))
      ensures currency == old(currency)
    {
      form := form.(name := v);
      nameError := ClearNameError(nameError);
    }
  }

  class EditPaymentMethodModal {
    var form: PaymentMethodForm
    var nameError: Option<string>
    var initialized: bool

    constructor()
      ensures form == BlankForm && nameError == None && !initialized
    {
      form := BlankForm;
      nameError := None;
      initialized := false;
    }

    method Sync(paymentMethod: Option<PaymentMethod>)
      modifies this
      ensures paymentMethod.Some? && !old(initialized) ==> form == FormOf(paymentMethod.value) && initialized
      ensures !(paymentMethod.Some? && !old(initialized)) ==> form == old(form) && initialized == old(initialized)
      ensures nameError == old(nameError)
    {
      if paymentMethod.Some? && !initialized {
        form := FormOf(paymentMethod.value);
        initialized := true;
      }
    }

    method HandleSubmit(paymentMethod: Option<PaymentMethod>) returns (sent: Option<(string, UpdatePaymentMethodRequest)>)
      modifies this
      ensures paymentMethod.None? ==>
        sent == None && form == old(form) && nameError == old(nameError) && initialized == old(initialized)
      ensures paymentMethod.Some? && NameError(old(form).name, NameTooLong).Some? ==>
        sent == None && nameError == NameError(old(form).name, NameTooLong)
        && form == old(form) && initialized == old(initialized)
      ensures paymentMethod.Some? && NameError(old(form).name, NameTooLong).None? ==>
        sent == Some((paymentMethod.value.id, UpdateRequest(old(form))))
        && form == BlankForm && nameError == None && !initialized
    {
      if paymentMethod.None? {
        return None;
      }
      var err := NameError(form.name, NameTooLong);
      if err.Some? {
        nameError := err;
        return None;
      }
      nameError := None;
      sent := Some((paymentMethod.value.id, UpdateRequest(form)));
      ResetAndClose();
    }

    method ResetAndClose()
      modifies this
      ensures form == BlankForm && nameError == None && !initialized
    {
      form := BlankForm;
      nameError := None;
      initialized := false;
    }

    method ChangeName(v: string)
      modifies this
      ensures form == old(form).(name := v) && nameError == ClearNameError(old(nameError))
      ensures initialized == old(initialized)
    {
      form := form.(name := v);
      nameError := ClearNameError(nameError);
    }
  }
}
