/** The machine-installation form: who may fill it, which controls are
    disabled, field edits, and the submit cycle with its in-flight flag. */
module MachineInstallation {
  import opened Types
  import opened Forms

  /** Filling the form is for the two employee roles. */
  function CanFillForm(role: Option<Role>): (b: bool)
    ensures b <==> role.Some? && (role.value == CompanyEmployee || role.value == DealerEmployee)
  {
    role == Some(CompanyEmployee) || role == Some(DealerEmployee)
  }

  /** The form's editable inputs (the installer field is not one of them). */
  const EditableFields: set<string> := {"machineModel", "serialNumber", "installationDate", "location", "notes"}

  /** A control's `disabled` attribute: the installer field always, every
      other input and the submit button exactly when the user may not fill
      the form or a submission is in flight. */
  function FieldDisabled(role: Option<Role>, isSubmitting: bool, field: string): (d: bool)
    ensures field == "installedBy" ==> d
    ensures field in EditableFields ==> (d <==> !CanFillForm(role) || isSubmitting)
  {
    if field == "installedBy" then true else !CanFillForm(role) || isSubmitting
  }

  function SubmitDisabled(role: Option<Role>, isSubmitting: bool): (d: bool)
    ensures d <==> !CanFillForm(role) || isSubmitting
  {
    !CanFillForm(role) || isSubmitting
  }

  /** The cancel button is disabled only while a submission is in flight. */
  function CancelDisabled(isSubmitting: bool): bool {
    isSubmitting
  }

  /** The initial form; `today` stands for the current date and the
      installer is the user's name, or empty. */
  function FreshForm(userName: Option<string>, today: string): (d: Draft)
    ensures d.Keys == EditableFields + {"installedBy"}
    ensures d["installedBy"] == userName.GetOr("") && d["installationDate"] == today
    ensures !FormComplete(d)
  {
    map["machineModel" := "", "serialNumber" := "", "installationDate" := today,
        "installedBy" := userName.GetOr(""), "location" := "", "notes" := ""]
  }

  /** The submit handler's own check: it tests model, serial number and
      location; it does not test the date or the notes. */
  predicate FormComplete(d: Draft) {
    Filled(d, "machineModel") && Filled(d, "serialNumber") && Filled(d, "location")
  }

  /** A fresh form is never complete; filling the three fields the handler
      checks passes its check, whatever the notes and the date hold. */
  lemma RequiredFieldsOnly(userName: Option<string>, today: string, model: string, serial: string, location: string, notes: string)
    ensures !FormComplete(FreshForm(userName, today))
    ensures FreshForm(userName, today)["installedBy"] == userName.GetOr("")
    ensures FormComplete(SetField(SetField(SetField(SetField(SetField(FreshForm(userName, today),
              "machineModel", model), "serialNumber", serial), "location", location), "notes", notes), "installationDate", ""))
            <==> model != "" && serial != "" && location != ""
  {
  }

  class InstallationForm {
    var formData: Draft
    var isSubmitting: bool

    constructor (userName: Option<string>, today: string)
      ensures formData == FreshForm(userName, today) && !isSubmitting
    {
      formData := FreshForm(userName, today);
      isSubmitting := false;
    }

    /** An input's change event: only the named field changes. */
    method HandleChange(name: string, value: string)
      modifies this
      ensures formData == SetField(old(formData), name, value)
      ensures isSubmitting == old(isSubmitting)
    {
      formData := SetField(formData, name, value);
    }

    /** The model select's change: the same update as an input. */
    method HandleSelectChange(name: string, value: string)
      modifies this
      ensures formData == SetField(old(formData), name, value)
      ensures isSubmitting == old(isSubmitting)
    {
      HandleChange(name, value);
    }

    /** Aborts an incomplete form without touching anything; otherwise starts
        the simulated request, which is then in flight. */
    method HandleSubmit() returns (started: bool)
      modifies this
      ensures started <==> FormComplete(old(formData))
      ensures formData == old(formData)
      ensures started ==> isSubmitting
      ensures !started ==> isSubmitting == old(isSubmitting)
    {
      if !Filled(formData, "machineModel") || !Filled(formData, "serialNumber") || !Filled(formData, "location") {
        return false;
      }
      isSubmitting := true;
      return true;
    }

    /** The delayed completion: the request is over and the browser goes to
        the machine list. */
    method SubmitCompleted() returns (target: string)
      modifies this
      ensures !isSubmitting && formData == old(formData)
      ensures target == "/machines"
    {
      isSubmitting := false;
      target := "/machines";
    }
  }
}
