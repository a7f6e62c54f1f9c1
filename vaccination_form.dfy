/**
 * The vaccination form at `/vaccination/edit/:vaxId` (edit) and
 * `/vaccination/add/:animalId` (add): the mode flags, the prefill effect,
 * the inputs, of which `animal_id` is always disabled, and the submit.
 */
module VaccinationEditing {
  import opened Base
  import opened Text
  import opened Entities

  const VaccinationFields: set<string> :=
    {"animal_id", "vaccine_type", "vaccine_name", "vaccination_date", "valid_until"}

  /** A record's field under its JSON name; `None` for a name that is not a form field. */
  function VaccinationField(v: Vaccination, name: string): Option<string> {
    match name
    case "animal_id" => v.animalId
    case "vaccine_type" => v.vaccineType
    case "vaccine_name" => v.vaccineName
    case "vaccination_date" => v.vaccinationDate
    case "valid_until" => v.validUntil
    case _ => None
  }

  predicate IsDateField(name: string) {
    name == "vaccination_date" || name == "valid_until"
  }

  function EmptyForm(): (form: Form)
    ensures form.Keys == VaccinationFields
    ensures forall k :: k in form ==> form[k] == ""
  {
    map k | k in VaccinationFields :: ""
  }

  /**
   * The form prefilled from a loaded record: both dates cut to their date
   * part, every other field its value or ''.
   */
  function RecordForm(v: Vaccination): (form: Form)
    ensures form.Keys == VaccinationFields
    ensures forall k :: k in form && IsDateField(k) ==> form[k] == FormatDateForInput(VaccinationField(v, k))
    ensures forall k :: k in form && !IsDateField(k) && Truthy(VaccinationField(v, k)) ==>
      form[k] == VaccinationField(v, k).value
    ensures forall k :: k in form && !Truthy(VaccinationField(v, k)) ==> form[k] == ""
  {
    map k | k in VaccinationFields ::
      if IsDateField(k) then FormatDateForInput(VaccinationField(v, k)) else OrEmpty(VaccinationField(v, k))
  }

  class VaccinationEditor {
    /** The `:animalId` route parameter. */
    const animalId: Option<string>
    /** The `:vaxId` route parameter. */
    const vaxId: Option<string>
    var form: Form
    var message: string

    /** `Boolean(vaxId)`. */
    predicate IsEditMode()
      reads this
    {
      Truthy(vaxId)
    }

    /** `Boolean(animalId)`. */
    predicate IsAddMode()
      reads this
    {
      Truthy(animalId)
    }

    predicate Valid()
      reads this
    {
      form.Keys == VaccinationFields
    }

    constructor (animalId: Option<string>, vaxId: Option<string>)
      ensures Valid()
      ensures this.animalId == animalId && this.vaxId == vaxId && form == EmptyForm() && message == ""
    {
      this.animalId := animalId;
      this.vaxId := vaxId;
      form := EmptyForm();
      message := "";
    }

    /**
     * The prefill effect. Edit mode wins over add mode: it fetches the record
     * and, on success, replaces the whole form; a failure changes nothing.
     * Add mode only writes `animal_id`. With neither, nothing happens.
     */
    method Load(reply: Reply<Vaccination>) returns (request: Option<Request>)
      requires Valid()
      modifies this`form
      ensures Valid()
      ensures IsEditMode() ==> request == Some(Request(Get, "/vaccinations/vacc/" + vaxId.value, map[]))
      ensures IsEditMode() ==> form == if reply.Ok? then RecordForm(reply.data) else old(form)
      ensures !IsEditMode() ==> request == None
      ensures !IsEditMode() && IsAddMode() ==> form == old(form)["animal_id" := animalId.value]
      ensures !IsEditMode() && !IsAddMode() ==> form == old(form)
    {
      request := None;
      if Truthy(vaxId) {
        request := Some(Request(Get, "/vaccinations/vacc/" + vaxId.value, map[]));
        if reply.Ok? {
          form := RecordForm(reply.data);
        }
      } else if Truthy(animalId) {
        form := form["animal_id" := animalId.value];
      }
    }

    /** `handleChange`: an enabled input writes only its own field; `animal_id` has none. */
    method HandleChange(name: string, value: string)
      requires Valid()
      requires name in VaccinationFields && name != "animal_id"
      modifies this`form
      ensures Valid()
      ensures form == old(form)[name := value]
      ensures form["animal_id"] == old(form)["animal_id"]
    {
      form := form[name := value];
    }

    /**
     * `handleSubmit`: PUT the record in edit mode, otherwise POST a new one,
     * with the form as the body; success reports and returns to the list,
     * failure reports according to the mode.
     */
    method HandleSubmit(succeeded: bool) returns (request: Request, redirect: Option<string>)
      modifies this`message
      ensures IsEditMode() ==> request == Request(Put, "/vaccinations/" + vaxId.value, AsBody(form))
      ensures !IsEditMode() ==> request == Request(Post, "/vaccinations", AsBody(form))
      ensures succeeded ==>
        redirect == Some("/vaccinations")
        && message == (if IsEditMode() then "✅ Vaccination updated successfully!"
                       else "✅ Vaccination added successfully!")
      ensures !succeeded ==>
        redirect == None
        && message == (if IsEditMode() then "❌ Error updating vaccination." else "❌ Error adding vaccination.")
    {
      if Truthy(vaxId) {
        request := Request(Put, "/vaccinations/" + vaxId.value, AsBody(form));
      } else {
        request := Request(Post, "/vaccinations", AsBody(form));
      }
      if !succeeded {
        message := if Truthy(vaxId) then "❌ Error updating vaccination." else "❌ Error adding vaccination.";
        return request, None;
      }
      message := if Truthy(vaxId) then "✅ Vaccination updated successfully!" else "✅ Vaccination added successfully!";
      redirect := Some("/vaccinations");
    }
  }

  /**
   * No run of edits through the enabled inputs changes `animal_id`, so an
   * add form submits the routed animal's id as the prefill wrote it.
   */
  lemma EditsKeepAnimalId(form: Form, inputs: seq<Input>)
    requires "animal_id" in form
    requires forall i :: 0 <= i < |inputs| ==> inputs[i].key in VaccinationFields - {"animal_id"}
    ensures "animal_id" in ApplyInputs(form, inputs)
    ensures ApplyInputs(form, inputs)["animal_id"] == form["animal_id"]
  {
    InputsKeepField(form, inputs, "animal_id");
  }
}
