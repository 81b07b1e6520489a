/**
 * The create and edit category dialogs: a required name and an optional,
 * non-negative budget that the update request clears with `null`.
 */
module CategoryModals {
  import opened Common
  import opened JsNumbers
  import opened Forms
  import opened Entities
  import JsText

  datatype CategoryForm = CategoryForm(name: string, description: string, budgetAmount: NumField)

  const BlankForm: CategoryForm := CategoryForm("", "", Empty)

  datatype CreateCategoryRequest = CreateCategoryRequest(
    name: string, description: Field<string>, budgetAmount: Field<JsNumber>)

  datatype UpdateCategoryRequest = UpdateCategoryRequest(
    name: string, description: Field<string>, budgetAmount: Field<JsNumber>)

  datatype Key = NameKey | BudgetAmountKey

  const NameRequired := "Nombre es requerido"
  const BudgetNotNegative := "Debe ser positivo"

  /** `budgetAmount && Number(budgetAmount) < 0`: a given, negative budget. */
  predicate BudgetRejected(budget: NumField)
  {
    budget.Filled? && budget.n.Num? && budget.n.v < 0.0
  }

  /** `validate` of both dialogs. */
  function Validate(f: CategoryForm): (errs: Errors<Key>)
    ensures NameKey in errs <==> JsText.IsBlank(f.name)
    ensures BudgetAmountKey in errs <==> BudgetRejected(f.budgetAmount)
    ensures NameKey in errs ==> errs[NameKey] == NameRequired
    ensures BudgetAmountKey in errs ==> errs[BudgetAmountKey] == BudgetNotNegative
  {
    var e1 := Check(map[], JsText.Trim(f.name) == [], NameKey, NameRequired);
    Check(e1, BudgetRejected(f.budgetAmount), BudgetAmountKey, BudgetNotNegative)
  }

  /** A request is emitted exactly when the name trims to something and the budget is absent or not negative. */
  lemma Gate(f: CategoryForm)
    ensures Validate(f) == map[] <==>
      !JsText.IsBlank(f.name)
      && (f.budgetAmount == Empty || NumberOf(f.budgetAmount) == NaN || NumberOf(f.budgetAmount).v >= 0.0)
  {
    if Validate(f) != map[] {
      var k :| k in Validate(f);
    }
  }

  /** The create body: the budget only when its field has text ("0" included). */
  function CreateRequest(f: CategoryForm): (r: CreateCategoryRequest)
    ensures r.name == JsText.Trim(f.name) && r.description == IfTrimmed(f.description)
    ensures f.budgetAmount == Empty <==> r.budgetAmount == Absent
    ensures f.budgetAmount.Filled? ==> r.budgetAmount == Present(f.budgetAmount.n)
  {
    CreateCategoryRequest(
      JsText.Trim(f.name), IfTrimmed(f.description),
      if f.budgetAmount.Filled? then Present(f.budgetAmount.n) else Absent)
  }

  /** The update body: an empty budget field is sent as `null`, which removes the budget. */
  function UpdateRequest(f: CategoryForm): (r: UpdateCategoryRequest)
    ensures r.name == JsText.Trim(f.name) && r.description == IfTrimmed(f.description)
    ensures f.budgetAmount == Empty <==> r.budgetAmount == Null
    ensures f.budgetAmount.Filled? ==> r.budgetAmount == Present(f.budgetAmount.n)
    ensures r.budgetAmount != Absent
  {
    UpdateCategoryRequest(
      JsText.Trim(f.name), IfTrimmed(f.description),
      if f.budgetAmount.Filled? then Present(f.budgetAmount.n) else Null)
  }

  /** A zero budget is accepted and sent. */
  lemma ZeroBudgetSent(name: string, description: string)
    requires !JsText.IsBlank(name)
    ensures var f := CategoryForm(name, description, Filled(Num(0.0)));
      Validate(f) == map[] && CreateRequest(f).budgetAmount == Present(Num(0.0))
  {
    Gate(CategoryForm(name, description, Filled(Num(0.0))));
  }

  /** The edit dialog's fields, filled in from the category (`null` budget and description become ""). */
  function FormOf(c: Category): (f: CategoryForm)
    ensures f.name == c.name && f.description == OrEmpty(c.description)
    ensures c.budgetAmount.None? <==> f.budgetAmount == Empty
    ensures c.budgetAmount.Some? ==> f.budgetAmount == Filled(Num(c.budgetAmount.value))
  {
    CategoryForm(c.name, OrEmpty(c.description),
                 if c.budgetAmount.Some? then Filled(Num(c.budgetAmount.value)) else Empty)
  }

  /** Saving an untouched category sends its budget back, or `null` when it had none. */
  lemma EditRoundTrip(c: Category)
    ensures UpdateRequest(FormOf(c)).budgetAmount ==
      if c.budgetAmount.Some? then Present(Num(c.budgetAmount.value)) else Null
    ensures c.budgetAmount.Some? && c.budgetAmount.value >= 0.0 && !JsText.IsBlank(c.name) ==>
      Validate(FormOf(c)) == map[]
  {
    Gate(FormOf(c));
  }

  class CreateCategoryModal {
    var form: CategoryForm
    var errors: Errors<Key>

    constructor()
      ensures form == BlankForm && errors == map[]
    {
      form := BlankForm;
      errors := map[];
    }

    method HandleSubmit() returns (sent: Option<CreateCategoryRequest>)
      modifies this
      ensures Validate(old(form)) != map[] ==> sent == None && errors == Validate(old(form)) && form == old(form)
      ensures Validate(old(form)) == map[] ==> sent == Some(CreateRequest(old(form))) && form == BlankForm && errors == map[]
    {
      var errs := Validate(form);
      if errs != map[] {
        errors := errs;
        return None;
      }
      errors := map[];
      sent := Some(CreateRequest(form));
      ResetAndClose();
    }

    method ResetAndClose()
      modifies this
      ensures form == BlankForm && errors == map[]
    {
      form := BlankForm;
      errors := map[];
    }

    method ChangeName(v: string)
      modifies this
      ensures form == old(form).(name := v) && errors == ClearError(old(errors), NameKey)
    {
      form := form.(name := v);
      errors := ClearError(errors, NameKey);
    }

    method ChangeBudgetAmount(v: NumField)
      modifies this
      ensures form == old(form).(budgetAmount := v) && errors == ClearError(old(errors), BudgetAmountKey)
    {
      form := form.(budgetAmount := v);
      errors := ClearError(errors, BudgetAmountKey);
    }
  }

  class EditCategoryModal {
    var form: CategoryForm
    var initialized: bool
    var errors: Errors<Key>

    constructor()
      ensures form == BlankForm && !initialized && errors == map[]
    {
      form := BlankForm;
      initialized := false;
      errors := map[];
    }

    method Sync(category: Option<Category>)
      modifies this
      ensures category.Some? && !old(initialized) ==> form == FormOf(category.value) && initialized
      ensures !(category.Some? && !old(initialized)) ==> form == old(form) && initialized == old(initialized)
      ensures errors == old(errors)
    {
      if category.Some? && !initialized {
        form := FormOf(category.value);
        initialized := true;
      }
    }

    method HandleSubmit(category: Option<Category>) returns (sent: Option<(string, UpdateCategoryRequest)>)
      modifies this
      ensures category.None? ==> sent == None && form == old(form) && errors == old(errors) && initialized == old(initialized)
      ensures category.Some? && Validate(old(form)) != map[] ==>
        sent == None && errors == Validate(old(form)) && form == old(form) && initialized == old(initialized)
      ensures category.Some? && Validate(old(form)) == map[] ==>
        sent == Some((category.value.id, UpdateRequest(old(form)))) && form == BlankForm && !initialized && errors == map[]
    {
      if category.None? {
        return None;
      }
      var errs := Validate(form);
      if errs != map[] {
        errors := errs;
        return None;
      }
      errors := map[];
      sent := Some((category.value.id, UpdateRequest(form)));
      ResetAndClose();
    }

    method ResetAndClose()
      modifies this
      ensures form == BlankForm && !initialized && errors == map[]
    {
      form := BlankForm;
      initialized := false;
      errors := map[];
    }

    method ChangeName(v: string)
      modifies this
      ensures form == old(form).(name := v) && errors == ClearError(old(errors), NameKey)
      ensures initialized == old(initialized)
    {
      form := form.(name := v);
      errors := ClearError(errors, NameKey);
    }

    method ChangeBudgetAmount(v: NumField)
      modifies this
      ensures form == old(form).(budgetAmount := v) && errors == ClearError(old(errors), BudgetAmountKey)
      ensures initialized == old(initialized)
    {
      form := form.(budgetAmount := v);
      errors := ClearError(errors, BudgetAmountKey);
    }
  }
}
