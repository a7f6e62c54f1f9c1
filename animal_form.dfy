/**
 * The animal form at `/pet` (create) and `/pet/:id` (edit): the gated load of
 * an existing animal, the field-by-field edits, and the payload sent on
 * submit, which names the owning account only when the animal is new.
 */
module AnimalEditing {
  import opened Base
  import opened Text
  import opened Entities
  import opened Routing

  /** The form's fields. */
  const AnimalFields: set<string> :=
    {"nickname", "microchip_number", "species", "breed", "gender", "birth_date", "height", "weight"}

  /** An animal's field under its JSON name; `None` for a name that is not a form field. */
  function AnimalField(pet: Animal, name: string): Option<string> {
    match name
    case "nickname" => pet.nickname
    case "microchip_number" => pet.microchipNumber
    case "species" => pet.species
    case "breed" => pet.breed
    case "gender" => pet.gender
    case "birth_date" => pet.birthDate
    case "height" => pet.height
    case "weight" => pet.weight
    case _ => None
  }

  /** The initial state of the form: every field present and empty. */
  function EmptyForm(): (form: Form)
    ensures form.Keys == AnimalFields
    ensures forall k :: k in form ==> form[k] == ""
  {
    map k | k in AnimalFields :: ""
  }

  /** The two fields the backend stores as numbers. */
  predicate IsNumberField(name: string) {
    name == "height" || name == "weight"
  }

  /**
   * The form filled from a loaded animal: each field's value or '' when it is
   * falsy, and the birth date cut to its date part. Height and weight are
   * numbers, so a stored 0 is falsy too and shows as ''.
   */
  function PetForm(pet: Animal): (form: Form)
    ensures form.Keys == AnimalFields
    ensures forall k :: k in form && k != "birth_date" && !IsNumberField(k) && Truthy(AnimalField(pet, k)) ==>
      form[k] == AnimalField(pet, k).value
    ensures form["birth_date"] == FormatDateForInput(pet.birthDate)
    ensures forall k :: k in form && IsNumberField(k) && NumberTruthy(AnimalField(pet, k)) ==>
      form[k] == AnimalField(pet, k).value
    ensures forall k :: k in form && IsNumberField(k) && !NumberTruthy(AnimalField(pet, k)) ==> form[k] == ""
    ensures forall k :: k in form && !Truthy(AnimalField(pet, k)) ==> form[k] == ""
  {
    map k | k in AnimalFields ::
      if k == "birth_date" then FormatDateForInput(pet.birthDate)
      else if IsNumberField(k) then (if NumberTruthy(AnimalField(pet, k)) then AnimalField(pet, k).value else "")
      else OrEmpty(AnimalField(pet, k))
  }

  /** `form.name`, with a missing field read as ''; `parseFloat` gives NaN for both. */
  function FieldText(form: Form, name: string): string {
    if name in form then form[name] else ""
  }

  /**
   * The body of the submit request: the form's fields as text, except height
   * and weight, which are parsed as numbers, plus `user_id` for a new animal.
   */
  function Payload(form: Form, isNew: bool, userId: string): (body: map<string, Json>)
    ensures body.Keys == form.Keys + {"height", "weight"} + (if isNew then {"user_id"} else {})
    ensures body["height"] == ParsedFloat(FieldText(form, "height"))
    ensures body["weight"] == ParsedFloat(FieldText(form, "weight"))
    ensures isNew ==> body["user_id"] == Str(userId)
    ensures forall k :: k in form && k !in {"height", "weight"} && !(isNew && k == "user_id") ==>
      body[k] == Str(form[k])
  {
    var parsed := AsBody(form)["height" := ParsedFloat(FieldText(form, "height"))]
                              ["weight" := ParsedFloat(FieldText(form, "weight"))];
    if isNew then parsed["user_id" := Str(userId)] else parsed
  }

  /** An edit of a form holding only the animal fields never sends `user_id`: the owner is kept. */
  lemma EditPayloadKeepsOwner(form: Form, userId: string)
    requires form.Keys == AnimalFields
    ensures "user_id" !in Payload(form, false, userId)
    ensures "user_id" in Payload(form, true, userId)
  {
  }

  /**
   * A stored height or weight of 0 is shown as '' and, when the edit form is
   * submitted without touching it, is sent as `parseFloat('')` (NaN, which
   * goes over the wire as null) in place of the stored 0.
   */
  lemma StoredZeroResubmittedEmpty(pet: Animal, field: string, userId: string)
    requires IsNumberField(field) && AnimalField(pet, field) == Some("0")
    ensures PetForm(pet)[field] == ""
    ensures Payload(PetForm(pet), false, userId)[field] == ParsedFloat("")
  {
    var form := PetForm(pet);
    assert field in form;
    assert FieldText(form, field) == "";
  }

  class AnimalEditor {
    /** The `:id` route parameter. */
    const routeId: Option<string>
    var isNew: bool
    var originalUserId: Option<string>
    var form: Form
    var message: string
    var loading: bool

    /** The form holds exactly the animal fields, and only a routed animal can be in edit mode. */
    predicate Valid()
      reads this
    {
      form.Keys == AnimalFields && (!isNew ==> Truthy(routeId))
    }

    /** Whether the form is rendered once loading is over: no message, or still in create mode. */
    predicate ShowsForm()
      reads this
    {
      message == "" || isNew
    }

    constructor (routeId: Option<string>)
      ensures Valid()
      ensures this.routeId == routeId && isNew && originalUserId == Some("")
      ensures form == EmptyForm() && message == "" && loading
    {
      this.routeId := routeId;
      isNew := true;
      originalUserId := Some("");
      form := EmptyForm();
      message := "";
      loading := true;
    }

    /**
     * The load effect. Without a signed-in user nothing happens; without a
     * route id only loading ends. Otherwise the animal is fetched: a failure
     * and a denied caller each leave the form as it was, set a message and
     * schedule a redirect; an allowed caller gets the form filled and edit mode.
     */
    method Load(user: Option<User>, reply: Reply<Animal>) returns (request: Option<Request>, redirect: Option<string>)
      requires Valid()
      modifies this
      ensures Valid()
      ensures user.None? ==>
        request == None && redirect == None && form == old(form) && isNew == old(isNew)
        && originalUserId == old(originalUserId) && message == old(message) && loading == old(loading)
      ensures user.Some? && !Truthy(routeId) ==>
        request == None && redirect == None && form == old(form) && isNew == old(isNew)
        && originalUserId == old(originalUserId) && message == old(message) && !loading
      ensures user.Some? && Truthy(routeId) ==>
        request == Some(Request(Get, "/animals/" + routeId.value, map[])) && !loading
      ensures user.Some? && Truthy(routeId) && reply.Failed? ==>
        message == "Error fetching pet data." && redirect == Some("/dashboard")
        && form == old(form) && isNew == old(isNew) && originalUserId == old(originalUserId)
      ensures user.Some? && Truthy(routeId) && reply.Ok? && !MayEdit(reply.data.userId, user.value) ==>
        message == "You are not authorized to edit this pet." && redirect == Some("/user-dashboard")
        && form == old(form) && isNew == old(isNew) && originalUserId == old(originalUserId)
      ensures user.Some? && Truthy(routeId) && reply.Ok? && MayEdit(reply.data.userId, user.value) ==>
        form == PetForm(reply.data) && originalUserId == reply.data.userId && !isNew
        && message == old(message) && redirect == None
    {
      request, redirect := None, None;
      if user.None? {
        return;
      }
      if !Truthy(routeId) {
        loading := false;
        return;
      }
      request := Some(Request(Get, "/animals/" + routeId.value, map[]));
      match reply {
        case Failed =>
          message := "Error fetching pet data.";
          loading := false;
          redirect := Some("/dashboard");
        case Ok(pet) =>
          if !MayEdit(pet.userId, user.value) {
            message := "You are not authorized to edit this pet.";
            loading := false;
            redirect := Some("/user-dashboard");
            return;
          }
          form := PetForm(pet);
          originalUserId := pet.userId;
          isNew := false;
          loading := false;
      }
    }

    /** `handleChange`: the input named `name` takes the typed value; every other field is kept. */
    method HandleChange(name: string, value: string)
      requires Valid()
      requires name in AnimalFields
      modifies this`form
      ensures Valid()
      ensures form == old(form)[name := value]
      ensures forall k :: k in old(form) && k != name ==> form[k] == old(form)[k]
    {
      form := form[name := value];
    }

    /**
     * `handleSubmit`: POST a new animal with its owner, or PUT the routed one
     * without `user_id`; success reports and sends the role to its dashboard,
     * failure only reports.
     */
    method HandleSubmit(user: User, succeeded: bool) returns (request: Request, redirect: Option<string>)
      requires Valid()
      modifies this`message
      ensures Valid()
      ensures isNew ==> request == Request(Post, "/animals", Payload(form, true, user.userId))
      ensures !isNew ==> request == Request(Put, "/animals/" + routeId.value, Payload(form, false, user.userId))
      ensures isNew ==> request.body["user_id"] == Str(user.userId)
      ensures !isNew ==> "user_id" !in request.body
      ensures succeeded ==>
        redirect == Some(DashboardRoute(user.role))
        && message == (if isNew then "Animal added successfully!" else "Animal updated successfully!")
      ensures !succeeded ==>
        redirect == None
        && message == (if isNew then "Error adding pet." else "Error updating pet.")
    {
      var payload := AsBody(form);
      payload := payload["height" := ParsedFloat(FieldText(form, "height"))];
      payload := payload["weight" := ParsedFloat(FieldText(form, "weight"))];
      if isNew {
        payload := payload["user_id" := Str(user.userId)];
      }
      EditPayloadKeepsOwner(form, user.userId);
      if isNew {
        request := Request(Post, "/animals", payload);
      } else {
        request := Request(Put, "/animals/" + routeId.value, payload);
      }
      if !succeeded {
        message := if isNew then "Error adding pet." else "Error updating pet.";
        return request, None;
      }
      message := if isNew then "Animal added successfully!" else "Animal updated successfully!";
      if user.role == "vet" {
        redirect := Some("/vet-dashboard");
      } else if user.role == "admin" {
        redirect := Some("/admin-dashboard");
      } else {
        redirect := Some("/user-dashboard");
      }
    }
  }

  /**
   * A caller who may not edit the routed animal is left with the empty form
   * in create mode, which is still rendered under the refusal.
   */
  method OpenDenied(routeId: Option<string>, user: User, pet: Animal) returns (editor: AnimalEditor)
    requires Truthy(routeId) && !MayEdit(pet.userId, user)
    ensures editor.Valid() && editor.form == EmptyForm() && editor.isNew && editor.ShowsForm()
    ensures editor.message == "You are not authorized to edit this pet."
  {
    editor := new AnimalEditor(routeId);
    var _, _ := editor.Load(Some(user), Ok(pet));
  }
}
