/**
 * The create and edit expense dialogs: their form state, the validation
 * gate, the defaults for category and payment method, the request body
 * they emit (currency conversion, optional and nullable properties) and
 * the alternative-amount autofill.
 */
module ExpenseModals {
  import opened Common
  import opened JsNumbers
  import opened Entities
  import opened Forms
  import JsText

  /** The text fields of an expense dialog. Numeric inputs hold `NumField`s. */
  datatype ExpenseForm = ExpenseForm(
    title: string,
    amount: NumField,
    currency: string,
    expenseDate: string,
    categoryId: string,
    paymentMethodId: string,
    exchangeRate: NumField,
    description: string,
    notes: string,
    obligationId: string,
    altCurrency: string,
    altExchangeRate: NumField,
    altAmount: NumField)

  /** A dialog's fields when it opens and after it is reset: currency "CRC", rate "1", the rest empty. */
  const BlankForm: ExpenseForm :=
    ExpenseForm("", Empty, "CRC", "", "", "", Filled(Num(1.0)), "", "", "", "", Empty, Empty)

  /** The body of a create or update request. */
  datatype ExpenseRequest = ExpenseRequest(
    title: string,
    originalAmount: JsNumber,
    originalCurrency: string,
    expenseDate: string,
    categoryId: string,
    paymentMethodId: string,
    exchangeRate: JsNumber,
    convertedAmount: JsNumber,
    description: Field<string>,
    notes: Field<string>,
    obligationId: Field<string>,
    altCurrency: Field<string>,
    altExchangeRate: Field<JsNumber>,
    altAmount: Field<JsNumber>)

  /** The fields a message can be attached to. */
  datatype Key = TitleKey | AmountKey | ExpenseDateKey | CategoryIdKey | PaymentMethodIdKey

  const TitleRequired := "Título es requerido"
  const AmountPositive := "Monto debe ser mayor a 0"
  const DateRequired := "Fecha es requerida"
  const CategoryRequired := "Categoría es requerida"
  const PaymentMethodRequired := "Método de pago es requerido"

  // ---------------------------------------------------------------------------
  // Defaults

  /** `categories.find(c => c.isDefault)`. */
  function FindDefault(categories: seq<Category>): (r: Option<Category>)
    ensures r.Some? ==> r.value in categories && r.value.isDefault
    ensures r.None? ==> forall c :: c in categories ==> !c.isDefault
    ensures r.Some? ==> exists i :: 0 <= i < |categories| && categories[i] == r.value
                          && forall j :: 0 <= j < i ==> !categories[j].isDefault
  {
    if categories == [] then None
    else if categories[0].isDefault then Some(categories[0])
    else
      var r := FindDefault(categories[1..]);
      if r.Some? then
        var i :| 0 <= i < |categories[1..]| && categories[1..][i] == r.value
                 && forall j :: 0 <= j < i ==> !categories[1..][j].isDefault;
        assert categories[i + 1] == r.value;
        assert forall j :: 1 <= j < i + 1 ==> categories[j] == categories[1..][j - 1];
        r
      else r
  }

  /**
   * `categoryId || categories.find(isDefault)?.id || categories[0]?.id || ""`:
   * the chosen category, else the first default one, else the first one.
   */
  function EffectiveCategoryId(chosen: string, categories: seq<Category>): (r: string)
    ensures chosen != "" ==> r == chosen
    ensures r == "" || r == chosen || exists c :: c in categories && c.id == r
  {
    if chosen != "" then chosen
    else
      var d := FindDefault(categories);
      if d.Some? && d.value.id != "" then d.value.id
      else if categories != [] then categories[0].id
      else ""
  }

  /** The default category wins over list order when nothing is chosen. */
  lemma EffectiveCategoryPrefersDefault(categories: seq<Category>, i: nat)
    requires i < |categories| && categories[i].isDefault && categories[i].id != ""
    requires forall j :: 0 <= j < i ==> !categories[j].isDefault
    ensures EffectiveCategoryId("", categories) == categories[i].id
  {
    var d := FindDefault(categories);
    var k :| 0 <= k < |categories| && categories[k] == d.value
             && forall j :: 0 <= j < k ==> !categories[j].isDefault;
    assert k == i;
  }

  /** Without a default category the first one is used; with no categories at all, "". */
  lemma EffectiveCategoryFallback(categories: seq<Category>)
    requires forall c :: c in categories ==> !c.isDefault
    ensures EffectiveCategoryId("", categories) == if categories == [] then "" else categories[0].id
  {
  }

  /** `paymentMethodId || paymentMethods[0]?.id || ""`. */
  function EffectivePaymentMethodId(chosen: string, paymentMethods: seq<PaymentMethod>): (r: string)
    ensures chosen != "" ==> r == chosen
    ensures chosen == "" && paymentMethods != [] ==> r == paymentMethods[0].id
    ensures chosen == "" && paymentMethods == [] ==> r == ""
  {
    if chosen != "" then chosen
    else if paymentMethods != [] then paymentMethods[0].id
    else ""
  }

  // ---------------------------------------------------------------------------
  // Validation

  /** The checks both dialogs share: title, amount and date. */
  function ValidateCommon(f: ExpenseForm): (errs: Errors<Key>)
    ensures TitleKey in errs <==> JsText.IsBlank(f.title)
    ensures AmountKey in errs <==> AmountRejected(f.amount)
    ensures ExpenseDateKey in errs <==> f.expenseDate == ""
    ensures errs.Keys <= {TitleKey, AmountKey, ExpenseDateKey}
    ensures TitleKey in errs ==> errs[TitleKey] == TitleRequired
    ensures AmountKey in errs ==> errs[AmountKey] == AmountPositive
    ensures ExpenseDateKey in errs ==> errs[ExpenseDateKey] == DateRequired
  {
    var e1 := Check(map[], JsText.Trim(f.title) == [], TitleKey, TitleRequired);
    var e2 := Check(e1, AmountRejected(f.amount), AmountKey, AmountPositive);
    Check(e2, f.expenseDate == "", ExpenseDateKey, DateRequired)
  }

  /** The create dialog's `validate`: the shared checks plus an effective category and payment method. */
  function ValidateCreate(f: ExpenseForm, categories: seq<Category>, paymentMethods: seq<PaymentMethod>): (errs: Errors<Key>)
    ensures TitleKey in errs <==> JsText.IsBlank(f.title)
    ensures AmountKey in errs <==> AmountRejected(f.amount)
    ensures ExpenseDateKey in errs <==> f.expenseDate == ""
    ensures CategoryIdKey in errs <==> EffectiveCategoryId(f.categoryId, categories) == ""
    ensures PaymentMethodIdKey in errs <==> EffectivePaymentMethodId(f.paymentMethodId, paymentMethods) == ""
    ensures TitleKey in errs ==> errs[TitleKey] == TitleRequired
    ensures AmountKey in errs ==> errs[AmountKey] == AmountPositive
    ensures ExpenseDateKey in errs ==> errs[ExpenseDateKey] == DateRequired
    ensures CategoryIdKey in errs ==> errs[CategoryIdKey] == CategoryRequired
    ensures PaymentMethodIdKey in errs ==> errs[PaymentMethodIdKey] == PaymentMethodRequired
  {
    var e4 := Check(ValidateCommon(f), EffectiveCategoryId(f.categoryId, categories) == "",
                    CategoryIdKey, CategoryRequired);
    Check(e4, EffectivePaymentMethodId(f.paymentMethodId, paymentMethods) == "",
          PaymentMethodIdKey, PaymentMethodRequired)
  }

  /**
   * The create gate: a request is built exactly when the title trims to
   * something, the amount is given and not at most 0, a date is set, and
   * both a category and a payment method can be determined.
   */
  lemma CreateGate(f: ExpenseForm, categories: seq<Category>, paymentMethods: seq<PaymentMethod>)
    ensures ValidateCreate(f, categories, paymentMethods) == map[] <==>
      && !JsText.IsBlank(f.title)
      && !AmountRejected(f.amount)
      && f.expenseDate != ""
      && EffectiveCategoryId(f.categoryId, categories) != ""
      && EffectivePaymentMethodId(f.paymentMethodId, paymentMethods) != ""
  {
    var errs := ValidateCreate(f, categories, paymentMethods);
    if errs != map[] {
      var k :| k in errs;
    }
  }

  /** The edit gate: only title, amount and date are checked. */
  lemma EditGate(f: ExpenseForm)
    ensures ValidateCommon(f) == map[] <==>
      !JsText.IsBlank(f.title) && !AmountRejected(f.amount) && f.expenseDate != ""
  {
    var errs := ValidateCommon(f);
    if errs != map[] {
      var k :| k in errs;
    }
  }

  // ---------------------------------------------------------------------------
  // The request body

  /** `Number(exchangeRate) || 1`: a rate reading as 0 or NaN becomes 1, any other (even negative) is kept. */
  function EffectiveRate(exchangeRate: NumField): (r: JsNumber)
    ensures Truthy(r)
    ensures Truthy(NumberOf(exchangeRate)) ==> r == NumberOf(exchangeRate)
    ensures !Truthy(NumberOf(exchangeRate)) ==> r == Num(1.0)
  {
    OrOne(NumberOf(exchangeRate))
  }

  /** An emptied rate field converts at 1. */
  lemma EmptyRateIsOne()
    ensures EffectiveRate(Empty) == Num(1.0)
  {
  }

  /** `parseFloat((Number(amount) * rate).toFixed(2))`: the amount in the project currency, to the cent. */
  function ConvertedAmount(amount: NumField, rate: JsNumber): (r: JsNumber)
    ensures r.Num? <==> NumberOf(amount).Num? && rate.Num?
    ensures r.Num? ==> NumberOf(amount).v * rate.v - 1.0 / 200.0 <= r.v <= NumberOf(amount).v * rate.v + 1.0 / 200.0
    ensures r.Num? ==> r.v * 100.0 == Cents(NumberOf(amount).v * rate.v) as real
  {
    Round2(Mul(NumberOf(amount), rate))
  }

  /** `Number(text)` of a field that was given. */
  function NumberIfGiven(f: NumField): (r: Field<JsNumber>)
    ensures f == Empty <==> r == Absent
    ensures f.Filled? ==> r == Present(f.n)
  {
    if f.Filled? then Present(f.n) else Absent
  }

  /**
   * The alternative-currency properties: with a currency, the currency and
   * each of rate and amount whose text is non-empty; without one, all three
   * sent as null.
   */
  function AltFields(f: ExpenseForm): (r: (Field<string>, Field<JsNumber>, Field<JsNumber>))
    ensures f.altCurrency == "" ==> r == (Null, Null, Null)
    ensures f.altCurrency != "" ==> r.0 == Present(f.altCurrency)
    ensures f.altCurrency != "" ==> (r.1 == Absent <==> f.altExchangeRate == Empty)
    ensures f.altCurrency != "" ==> (r.2 == Absent <==> f.altAmount == Empty)
    ensures f.altCurrency != "" ==> r.1 != Null && r.2 != Null
  {
    if f.altCurrency != "" then (Present(f.altCurrency), NumberIfGiven(f.altExchangeRate), NumberIfGiven(f.altAmount))
    else (Null, Null, Null)
  }

  /** The properties both dialogs send, given the category and payment method ids to send. */
  function BuildRequest(f: ExpenseForm, categoryId: string, paymentMethodId: string, obligationId: Field<string>): (r: ExpenseRequest)
    ensures r.title == JsText.Trim(f.title)
    ensures r.originalAmount == NumberOf(f.amount) && r.originalCurrency == f.currency
    ensures r.expenseDate == f.expenseDate
    ensures r.categoryId == categoryId && r.paymentMethodId == paymentMethodId
    ensures r.exchangeRate == EffectiveRate(f.exchangeRate)
    ensures r.convertedAmount == ConvertedAmount(f.amount, r.exchangeRate)
    ensures r.description == IfTrimmed(f.description) && r.notes == IfTrimmed(f.notes)
    ensures r.obligationId == obligationId
    ensures (r.altCurrency, r.altExchangeRate, r.altAmount) == AltFields(f)
  {
    var rate := EffectiveRate(f.exchangeRate);
    var alt := AltFields(f);
    ExpenseRequest(
      JsText.Trim(f.title), NumberOf(f.amount), f.currency, f.expenseDate,
      categoryId, paymentMethodId, rate, ConvertedAmount(f.amount, rate),
      IfTrimmed(f.description), IfTrimmed(f.notes), obligationId,
      alt.0, alt.1, alt.2)
  }

  /** `if (obligationId) data.obligationId = obligationId`: any non-empty selection, "none" included. */
  function ObligationField(obligationId: string): (r: Field<string>)
    ensures obligationId == "" <==> r == Absent
    ensures obligationId != "" ==> r == Present(obligationId)
  {
    if obligationId != "" then Present(obligationId) else Absent
  }

  /** The create dialog's request body. */
  function CreateRequest(f: ExpenseForm, categories: seq<Category>, paymentMethods: seq<PaymentMethod>): ExpenseRequest
  {
    BuildRequest(f, EffectiveCategoryId(f.categoryId, categories),
                 EffectivePaymentMethodId(f.paymentMethodId, paymentMethods),
                 ObligationField(f.obligationId))
  }

  /** The edit dialog's request body: the category and payment method as they are, no obligation. */
  function EditRequest(f: ExpenseForm): ExpenseRequest
  {
    BuildRequest(f, f.categoryId, f.paymentMethodId, Absent)
  }

  /** Choosing the "none" obligation still sends `obligationId: "none"`. */
  lemma NoneObligationIsSent(f: ExpenseForm, categories: seq<Category>, paymentMethods: seq<PaymentMethod>)
    requires f.obligationId == "none"
    ensures CreateRequest(f, categories, paymentMethods).obligationId == Present("none")
  {
  }

  /**
   * A request the create dialog accepts carries a trimmed non-empty title,
   * a positive amount (or NaN), a date, and non-empty category and payment
   * method ids.
   */
  lemma CreateRequestWellFormed(f: ExpenseForm, categories: seq<Category>, paymentMethods: seq<PaymentMethod>)
    requires ValidateCreate(f, categories, paymentMethods) == map[]
    ensures var r := CreateRequest(f, categories, paymentMethods);
      && r.title != "" && r.title == JsText.Trim(r.title)
      && (r.originalAmount.Num? ==> r.originalAmount.v > 0.0)
      && r.expenseDate != "" && r.categoryId != "" && r.paymentMethodId != ""
      && Truthy(r.exchangeRate)
  {
    CreateGate(f, categories, paymentMethods);
    BuildRequestWellFormed(f, EffectiveCategoryId(f.categoryId, categories),
                           EffectivePaymentMethodId(f.paymentMethodId, paymentMethods),
                           ObligationField(f.obligationId));
  }

  /** The request built from fields that pass the gate, whichever dialog builds it. */
  lemma BuildRequestWellFormed(f: ExpenseForm, categoryId: string, paymentMethodId: string, obligationId: Field<string>)
    requires !JsText.IsBlank(f.title) && !AmountRejected(f.amount) && f.expenseDate != ""
    requires categoryId != "" && paymentMethodId != ""
    ensures var r := BuildRequest(f, categoryId, paymentMethodId, obligationId);
      && r.title != "" && r.title == JsText.Trim(r.title)
      && (r.originalAmount.Num? ==> r.originalAmount.v > 0.0)
      && r.expenseDate != "" && r.categoryId != "" && r.paymentMethodId != ""
      && Truthy(r.exchangeRate)
  {
    JsText.TrimIdempotent(f.title);
  }

  // ---------------------------------------------------------------------------
  // Editing fields

  /**
   * Typing an alternative rate: the new `altAmount` is the raw amount times
   * the raw exchange rate times the typed rate, to 2 decimals, when both the
   * typed rate and the raw converted amount are positive; otherwise it is
   * left as it was. The raw `Number(exchangeRate)` is used here, not the
   * `|| 1` fallback of the request body.
   */
  function AltAmountAfterRate(f: ExpenseForm, altRate: NumField): (r: NumField)
    ensures var converted := Mul(NumberOf(f.amount), NumberOf(f.exchangeRate));
      if Greater(NumberOf(altRate), Num(0.0)) && Greater(converted, Num(0.0))
      then r.Filled? && r.n.Num? && r.n.v * 100.0 == Cents(converted.v * NumberOf(altRate).v) as real
      else r == f.altAmount
  {
    var rate := NumberOf(altRate);
    var converted := Mul(NumberOf(f.amount), NumberOf(f.exchangeRate));
    if Greater(rate, Num(0.0)) && Greater(converted, Num(0.0)) then Filled(Round2(Mul(converted, rate)))
    else f.altAmount
  }

  /** The autofilled amount is positive, so it is sent when the form is submitted with an alternative currency. */
  lemma AltAmountAutofillSent(f: ExpenseForm, altRate: NumField)
    requires f.altCurrency != ""
    requires Greater(NumberOf(altRate), Num(0.0))
    requires Greater(Mul(NumberOf(f.amount), NumberOf(f.exchangeRate)), Num(0.0))
    ensures var g := f.(altExchangeRate := altRate, altAmount := AltAmountAfterRate(f, altRate));
      AltFields(g).2.Present? && AltFields(g).2.value.Num? && AltFields(g).2.value.v >= 0.0
  {
    var converted := Mul(NumberOf(f.amount), NumberOf(f.exchangeRate));
    var x := converted.v * NumberOf(altRate).v;
    assert x > 0.0;
  }

  /** The "none" item of the alternative-currency select stands for no currency. */
  function AltCurrencyFromSelect(v: string): (r: string)
    ensures v == "none" ==> r == ""
    ensures v != "none" ==> r == v
  {
    if v == "none" then "" else v
  }

  /** The form the edit dialog fills in once from the expense it edits. */
  function FormOf(e: Expense): (f: ExpenseForm)
    ensures f.title == e.title && f.amount == Filled(Num(e.originalAmount))
    ensures f.currency == e.originalCurrency && f.expenseDate == e.expenseDate
    ensures f.categoryId == e.categoryId && f.paymentMethodId == e.paymentMethodId
    ensures f.exchangeRate == Filled(Num(e.exchangeRate))
    ensures f.description == OrEmpty(e.description) && f.notes == OrEmpty(e.notes)
    ensures f.altCurrency == OrEmpty(e.altCurrency)
    ensures e.altExchangeRate.None? <==> f.altExchangeRate == Empty
    ensures e.altAmount.None? <==> f.altAmount == Empty
  {
    ExpenseForm(
      e.title, Filled(Num(e.originalAmount)), e.originalCurrency, e.expenseDate,
      e.categoryId, e.paymentMethodId, Filled(Num(e.exchangeRate)),
      OrEmpty(e.description), OrEmpty(e.notes), "", OrEmpty(e.altCurrency),
      if e.altExchangeRate.Some? then Filled(Num(e.altExchangeRate.value)) else Empty,
      if e.altAmount.Some? then Filled(Num(e.altAmount.value)) else Empty)
  }

  /**
   * Saving an expense without touching the form sends back what it holds:
   * its title, amount, currency, date, category, payment method, a non-zero
   * rate, and its alternative-currency values (all null when it has none).
   */
  lemma EditRoundTrip(e: Expense)
    requires e.exchangeRate != 0.0
    requires e.altCurrency != Some("")
    ensures var r := EditRequest(FormOf(e));
      && r.title == JsText.Trim(e.title)
      && r.originalAmount == Num(e.originalAmount) && r.originalCurrency == e.originalCurrency
      && r.expenseDate == e.expenseDate
      && r.categoryId == e.categoryId && r.paymentMethodId == e.paymentMethodId
      && r.exchangeRate == Num(e.exchangeRate)
      && r.obligationId == Absent
      && (e.altCurrency.None? ==> r.altCurrency == Null && r.altExchangeRate == Null && r.altAmount == Null)
      && (e.altCurrency.Some? ==>
            && r.altCurrency == Present(e.altCurrency.value)
            && (r.altExchangeRate == if e.altExchangeRate.Some? then Present(Num(e.altExchangeRate.value)) else Absent)
            && (r.altAmount == if e.altAmount.Some? then Present(Num(e.altAmount.value)) else Absent))
  {
  }

  // ---------------------------------------------------------------------------
  // The dialogs

  /** The create dialog's state. */
  class CreateExpenseModal {
    var form: ExpenseForm
    var errors: Errors<Key>

    constructor()
      ensures form == BlankForm && errors == map[]
    {
      form := BlankForm;
      errors := map[];
    }

    /**
     * Submitting: with errors, they are shown and nothing is sent; otherwise
     * the request body is returned (for `onCreate`) and the dialog is reset.
     */
    method HandleSubmit(categories: seq<Category>, paymentMethods: seq<PaymentMethod>) returns (sent: Option<ExpenseRequest>)
      modifies this
      ensures var errs := ValidateCreate(old(form), categories, paymentMethods);
        if errs != map[] then sent == None && errors == errs && form == old(form)
        else sent == Some(CreateRequest(old(form), categories, paymentMethods)) && form == BlankForm && errors == map[]
    {
      var errs := ValidateCreate(form, categories, paymentMethods);
      if errs != map[] {
        errors := errs;
        return None;
      }
      errors := map[];
      sent := Some(CreateRequest(form, categories, paymentMethods));
      ResetAndClose();
    }

    /** Closing or finishing: every field back to its initial value and no errors. */
    method ResetAndClose()
      modifies this
      ensures form == BlankForm && errors == map[]
    {
      form := BlankForm;
      errors := map[];
    }

    method ChangeTitle(v: string)
      modifies this
      ensures form == old(form).(title := v) && errors == ClearError(old(errors), TitleKey)
    {
      form := form.(title := v);
      errors := ClearError(errors, TitleKey);
    }

    method ChangeAmount(v: NumField)
      modifies this
      ensures form == old(form).(amount := v) && errors == ClearError(old(errors), AmountKey)
    {
      form := form.(amount := v);
      errors := ClearError(errors, AmountKey);
    }

    method ChangeExpenseDate(v: string)
      modifies this
      ensures form == old(form).(expenseDate := v) && errors == ClearError(old(errors), ExpenseDateKey)
    {
      form := form.(expenseDate := v);
      errors := ClearError(errors, ExpenseDateKey);
    }

    method SelectAltCurrency(v: string)
      modifies this
      ensures form == old(form).(altCurrency := AltCurrencyFromSelect(v)) && errors == old(errors)
    {
      form := form.(altCurrency := AltCurrencyFromSelect(v));
    }

    method ChangeAltExchangeRate(v: NumField)
      modifies this
      ensures form == old(form).(altExchangeRate := v, altAmount := AltAmountAfterRate(old(form), v))
      ensures errors == old(errors)
    {
      form := form.(altExchangeRate := v, altAmount := AltAmountAfterRate(form, v));
    }
  }

  /** The edit dialog's state: the form is filled in from the expense once. */
  class EditExpenseModal {
    var form: ExpenseForm
    var initialized: bool
    var errors: Errors<Key>

    constructor()
      ensures form == BlankForm && !initialized && errors == map[]
    {
      form := BlankForm;
      initialized := false;
      errors := map[];
    }

    /** The render-time initialisation: only the first time an expense is present. */
    method Sync(expense: Option<Expense>)
      modifies this
      ensures expense.Some? && !old(initialized) ==> form == FormOf(expense.value) && initialized
      ensures !(expense.Some? && !old(initialized)) ==> form == old(form) && initialized == old(initialized)
      ensures errors == old(errors)
    {
      if expense.Some? && !initialized {
        form := FormOf(expense.value);
        initialized := true;
      }
    }

    /** Submitting: nothing at all without an expense; otherwise as the create dialog, with the edit gate. */
    method HandleSubmit(expense: Option<Expense>) returns (sent: Option<(string, ExpenseRequest)>)
      modifies this
      ensures expense.None? ==> sent == None && form == old(form) && errors == old(errors) && initialized == old(initialized)
      ensures expense.Some? && ValidateCommon(old(form)) != map[] ==>
        sent == None && errors == ValidateCommon(old(form)) && form == old(form) && initialized == old(initialized)
      ensures expense.Some? && ValidateCommon(old(form)) == map[] ==>
        sent == Some((expense.value.id, EditRequest(old(form)))) && form == BlankForm && !initialized && errors == map[]
    {
      if expense.None? {
        return None;
      }
      var errs := ValidateCommon(form);
      if errs != map[] {
        errors := errs;
        return None;
      }
      errors := map[];
      sent := Some((expense.value.id, EditRequest(form)));
      ResetAndClose();
    }

    method ResetAndClose()
      modifies this
      ensures form == BlankForm && !initialized && errors == map[]
    {
      form := BlankForm;
      initialized := false;
      errors := map[];
    }

    method ChangeTitle(v: string)
      modifies this
      ensures form == old(form).(title := v) && errors == ClearError(old(errors), TitleKey)
      ensures initialized == old(initialized)
    {
      form := form.(title := v);
      errors := ClearError(errors, TitleKey);
    }

    method ChangeAmount(v: NumField)
      modifies this
      ensures form == old(form).(amount := v) && errors == ClearError(old(errors), AmountKey)
      ensures initialized == old(initialized)
    {
      form := form.(amount := v);
      errors := ClearError(errors, AmountKey);
    }

    method ChangeExpenseDate(v: string)
      modifies this
      ensures form == old(form).(expenseDate := v) && errors == ClearError(old(errors), ExpenseDateKey)
      ensures initialized == old(initialized)
    {
      form := form.(expenseDate := v);
      errors := ClearError(errors, ExpenseDateKey);
    }

    method SelectAltCurrency(v: string)
      modifies this
      ensures form == old(form).(altCurrency := AltCurrencyFromSelect(v))
      ensures errors == old(errors) && initialized == old(initialized)
    {
      form := form.(altCurrency := AltCurrencyFromSelect(v));
    }

    method ChangeAltExchangeRate(v: NumField)
      modifies this
      ensures form == old(form).(altExchangeRate := v, altAmount := AltAmountAfterRate(old(form), v))
      ensures errors == old(errors) && initialized == old(initialized)
    {
      form := form.(altExchangeRate := v, altAmount := AltAmountAfterRate(form, v));
    }
  }
}
