/**
 * The create and edit project dialogs: the 1..255 name gate with its two
 * messages, and request bodies whose description is always sent trimmed.
 */
module ProjectModals {
  import opened Common
  import opened Forms
  import opened Entities
  import JsText

  datatype ProjectForm = ProjectForm(name: string, description: string)

  const BlankForm: ProjectForm := ProjectForm("", "")

  /** The create dialog's initial currency. */
  const DefaultCurrency := "USD"

  const NameTooLong := "Nombre no puede superar 255 caracteres"

  datatype CreateProjectRequest = CreateProjectRequest(name: string, currencyCode: string, description: string)

  /** The update body has no currency. */
  datatype UpdateProjectRequest = UpdateProjectRequest(name: string, description: string)

  /** The create body: trimmed name, the currency, and the trimmed description even when it is empty. */
  function CreateRequest(f: ProjectForm, currencyCode: string): (r: CreateProjectRequest)
    ensures r.name == JsText.Trim(f.name) && r.currencyCode == currencyCode
    ensures r.description == JsText.Trim(f.description)
    ensures JsText.IsBlank(f.description) ==> r.description == ""
  {
    CreateProjectRequest(JsText.Trim(f.name), currencyCode, JsText.Trim(f.description))
  }

  function UpdateRequest(f: ProjectForm): (r: UpdateProjectRequest)
    ensures r.name == JsText.Trim(f.name) && r.description == JsText.Trim(f.description)
  {
    UpdateProjectRequest(JsText.Trim(f.name), JsText.Trim(f.description))
  }

  /** A sent name is never empty, never longer than 255 code units, and already trimmed. */
  lemma SentNameWellFormed(f: ProjectForm, currencyCode: string)
    requires NameError(f.name, NameTooLong).None?
    ensures var n := CreateRequest(f, currencyCode).name;
      n != "" && JsText.Utf16Length(n) <= 255 && JsText.Trim(n) == n
  {
    JsText.TrimIdempotent(f.name);
  }

  /** The edit dialog's fields, filled in from the project (a `null` description becomes ""). */
  function FormOf(p: Project): (f: ProjectForm)
    ensures f.name == p.name && f.description == OrEmpty(p.description)
  {
    ProjectForm(p.name, OrEmpty(p.description))
  }

  class CreateProjectModal {
    var form: ProjectForm
    var currencyCode: string
    var nameError: Option<string>

    constructor()
      ensures form == BlankForm && currencyCode == DefaultCurrency && nameError == None
    {
      form := BlankForm;
      currencyCode := DefaultCurrency;
      nameError := None;
    }

    method HandleSubmit() returns (sent: Option<CreateProjectRequest>)
      modifies this
      ensures var err := NameError(old(form).name, NameTooLong);
        if err.Some? then sent == None && nameError == err && form == old(form) && currencyCode == old(currencyCode)
        else sent == Some(CreateRequest(old(form), old(currencyCode)))
             && form == BlankForm && currencyCode == DefaultCurrency && nameError == None
    {
      var err := NameError(form.name, NameTooLong);
      if err.Some? {
        nameError := err;
        return None;
      }
      nameError := None;
      sent := Some(CreateRequest(form, currencyCode));
      ResetAndClose();
    }

    /** Back to currency "USD", empty text and no error. */
    method ResetAndClose()
      modifies this
      ensures form == BlankForm && currencyCode == DefaultCurrency && nameError == None
    {
      form := BlankForm;
      currencyCode := DefaultCurrency;
      nameError := None;
    }

    method ChangeName(v: string)
      modifies this
      ensures form == old(form).(name := v) && nameError == ClearNameError(old(nameError))
      ensures currencyCode == old(currencyCode)
    {
      form := form.(name := v);
      nameError := ClearNameError(nameError);
    }
  }

  class EditProjectModal {
    var form: ProjectForm
    var nameError: Option<string>
    var initialized: bool

    constructor()
      ensures form == BlankForm && nameError == None && !initialized
    {
      form := BlankForm;
      nameError := None;
      initialized := false;
    }

    method Sync(project: Option<Project>)
      modifies this
      ensures project.Some? && !old(initialized) ==> form == FormOf(project.value) && initialized
      ensures !(project.Some? && !old(initialized)) ==> form == old(form) && initialized == old(initialized)
      ensures nameError == old(nameError)
    {
      if project.Some? && !initialized {
        form := FormOf(project.value);
        initialized := true;
      }
    }

    method HandleSubmit(project: Option<Project>) returns (sent: Option<(string, UpdateProjectRequest)>)
      modifies this
      ensures project.None? ==>
        sent == None && form == old(form) && nameError == old(nameError) && initialized == old(initialized)
      ensures project.Some? && NameError(old(form).name, NameTooLong).Some? ==>
        sent == None && nameError == NameError(old(form).name, NameTooLong)
        && form == old(form) && initialized == old(initialized)
      ensures project.Some? && NameError(old(form).name, NameTooLong).None? ==>
        sent == Some((project.value.id, UpdateRequest(old(form))))
        && form == BlankForm && nameError == None && !initialized
    {
      if project.None? {
        return None;
      }
      var err := NameError(form.name, NameTooLong);
      if err.Some? {
        nameError := err;
        return None;
      }
      nameError := None;
      sent := Some((project.value.id, UpdateRequest(form)));
      ResetAndClose();
    }

    method ResetAndClose()
      modifies this
      ensures form == BlankForm && nameError == None && !initialized
    {
      form := BlankForm;
      nameError := None;
      initialized := false;
    }

    method ChangeName(v: string)
      modifies this
      ensures form == old(form).(name := v) && nameError == ClearNameError(old(nameError))
      ensures initialized == old(initialized)
    {
      form := form.(name := v);
      nameError := ClearNameError(nameError);
    }
  }
}
