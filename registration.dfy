/**
 * The owner form at `/register` (own record) and `/register/:id` (a vet or an
 * admin opening someone's record): the gated load with its not-found
 * fallback to registration, the inputs, which never include `user_id`, and the submit.
 */
module OwnerRegistration {
  import opened Base
  import opened Text
  import opened Entities
  import opened Routing

  /** The form's keys, in the order of `Object.keys(form)`. */
  const OwnerFields: seq<string> :=
    ["user_id", "first_name", "last_name", "emso", "birth_date", "email", "phone", "address"]

  /** The same keys as a set. */
  const OwnerKeys: set<string> :=
    {"user_id", "first_name", "last_name", "emso", "birth_date", "email", "phone", "address"}

  /** The test of the editable-field list. */
  predicate IsNotUserId(key: string) {
    key != "user_id"
  }

  /** `Object.keys(form).filter(key => key !== 'user_id')`: the keys that get an input. */
  function EditableKeys(keys: seq<string>): (r: seq<string>)
    ensures "user_id" !in r
    ensures forall i :: 0 <= i < |keys| && keys[i] != "user_id" ==> keys[i] in r
    ensures forall i :: 0 <= i < |r| ==> r[i] in keys
    ensures IsSubsequence(r, keys)
    ensures forall x {:trigger multiset(r)[x]} :: multiset(r)[x] == if x != "user_id" then multiset(keys)[x] else 0
  {
    assert forall x :: multiset(Filter(keys, IsNotUserId))[x] == if IsNotUserId(x) then multiset(keys)[x] else 0 by {
      forall x { FilterCount(keys, IsNotUserId, x); }
    }
    Filter(keys, IsNotUserId)
  }

  /** An owner's field under its JSON name; `None` for a name that is not a form field. */
  function OwnerField(o: Owner, name: string): Option<string> {
    match name
    case "user_id" => o.userId
    case "first_name" => o.firstName
    case "last_name" => o.lastName
    case "emso" => o.emso
    case "birth_date" => o.birthDate
    case "email" => o.email
    case "phone" => o.phone
    case "address" => o.address
    case _ => None
  }

  /** The record fetched: the route id when present, else the caller's own account id. */
  function OwnerIdFor(routeId: Option<string>, user: User): (ownerId: string)
    ensures Truthy(routeId) ==> ownerId == routeId.value
    ensures !Truthy(routeId) ==> ownerId == user.userId
  {
    if Truthy(routeId) then routeId.value else user.userId
  }

  function EmptyForm(): (form: Form)
    ensures form.Keys == OwnerKeys
    ensures forall k :: k in form ==> form[k] == ""
  {
    map k | k in OwnerKeys :: ""
  }

  /**
   * The form filled from a loaded record: the record's `user_id`, or the
   * fetched id when it is falsy; the birth date cut to its date part; every
   * other field its value or ''.
   */
  function OwnerForm(o: Owner, ownerId: string): (form: Form)
    ensures form.Keys == OwnerKeys
    ensures form["user_id"] == if Truthy(o.userId) then o.userId.value else ownerId
    ensures form["birth_date"] == FormatDateForInput(o.birthDate)
    ensures forall k :: k in form && k !in {"user_id", "birth_date"} && Truthy(OwnerField(o, k)) ==>
      form[k] == OwnerField(o, k).value
    ensures forall k :: k in form && k != "user_id" && !Truthy(OwnerField(o, k)) ==> form[k] == ""
  {
    map k | k in OwnerKeys ::
      if k == "user_id" then (if Truthy(o.userId) then o.userId.value else ownerId)
      else if k == "birth_date" then FormatDateForInput(o.birthDate)
      else OrEmpty(OwnerField(o, k))
  }

  /** The result of `GET /owners/<id>`: the record, a 404, or any other failure. */
  datatype Lookup = Found(owner: Owner) | NotFound | Failed

  /**
   * No sequence of edits through the rendered inputs changes the owning
   * account: every input's key is in `EditableKeys`, hence not `user_id`.
   */
  lemma InputsKeepUserId(form: Form, inputs: seq<Input>)
    requires "user_id" in form
    requires forall i :: 0 <= i < |inputs| ==> inputs[i].key in EditableKeys(OwnerFields)
    ensures "user_id" in ApplyInputs(form, inputs)
    ensures ApplyInputs(form, inputs)["user_id"] == form["user_id"]
  {
    InputsKeepField(form, inputs, "user_id");
  }

  class OwnerEditor {
    /** The `:id` route parameter. */
    const routeId: Option<string>
    var message: string
    var loading: bool
    var isNew: bool
    var form: Form

    /** The form holds exactly the owner fields. */
    predicate Valid()
      reads this
    {
      form.Keys == OwnerKeys
    }

    constructor (routeId: Option<string>)
      ensures Valid()
      ensures this.routeId == routeId && message == "" && loading && isNew && form == EmptyForm()
    {
      this.routeId := routeId;
      message := "";
      loading := true;
      isNew := true;
      form := EmptyForm();
    }

    /**
     * `fetchOwnerData`: nothing without a signed-in user. Otherwise the record
     * is fetched; a denied caller keeps the form, gets a message and a
     * redirect home; an allowed one gets the form filled and edit mode; a 404
     * switches to registration under the fetched id; any other failure
     * changes nothing. Loading ends in every case.
     */
    method FetchOwnerData(user: Option<User>, lookup: Lookup) returns (request: Option<Request>, redirect: Option<string>)
      requires Valid()
      modifies this
      ensures Valid()
      ensures user.None? ==>
        request == None && redirect == None
        && form == old(form) && isNew == old(isNew) && message == old(message) && loading == old(loading)
      ensures user.Some? ==>
        request == Some(Request(Get, "/owners/" + OwnerIdFor(routeId, user.value), map[])) && !loading
      ensures user.Some? && lookup.Found? && !MayEdit(lookup.owner.userId, user.value) ==>
        message == "You are not authorized to edit this owner." && redirect == Some("/")
        && form == old(form) && isNew == old(isNew)
      ensures user.Some? && lookup.Found? && MayEdit(lookup.owner.userId, user.value) ==>
        form == OwnerForm(lookup.owner, OwnerIdFor(routeId, user.value)) && !isNew
        && message == old(message) && redirect == None
      ensures user.Some? && lookup.NotFound? ==>
        form == old(form)["user_id" := OwnerIdFor(routeId, user.value)] && isNew
        && message == old(message) && redirect == None
      ensures user.Some? && lookup.Failed? ==>
        form == old(form) && isNew == old(isNew) && message == old(message) && redirect == None
    {
      request, redirect := None, None;
      if user.None? {
        return;
      }
      var ownerId := OwnerIdFor(routeId, user.value);
      request := Some(Request(Get, "/owners/" + ownerId, map[]));
      match lookup {
        case Found(ownerData) =>
          if !MayEdit(ownerData.userId, user.value) {
            message := "You are not authorized to edit this owner.";
            loading := false;
            redirect := Some("/");
            return;
          }
          form := OwnerForm(ownerData, ownerId);
          isNew := false;
        case NotFound =>
          form := form["user_id" := ownerId];
          isNew := true;
        case Failed =>
      }
      loading := false;
    }

    /** One rendered input: writes its own key and never `user_id`. */
    method HandleInput(key: string, value: string)
      requires Valid()
      requires key in EditableKeys(OwnerFields)
      modifies this`form
      ensures Valid()
      ensures form == old(form)[key := value]
      ensures form["user_id"] == old(form)["user_id"]
    {
      form := form[key := value];
    }

    /**
     * `handleSubmit`: POST the form when registering, otherwise PUT it to the
     * record of its own `user_id`; success reports and sends the role home,
     * failure only reports.
     */
    method HandleSubmit(user: User, succeeded: bool) returns (request: Request, redirect: Option<string>)
      requires Valid()
      modifies this`message
      ensures isNew ==> request == Request(Post, "/owners", AsBody(form))
      ensures !isNew ==> request == Request(Put, "/owners/" + form["user_id"], AsBody(form))
      ensures succeeded ==>
        redirect == Some(RegistrationRoute(user.role))
        && message == (if isNew then "Data added successfully!" else "Data updated successfully!")
      ensures !succeeded ==> redirect == None && message == "Error saving owner."
    {
      if isNew {
        request := Request(Post, "/owners", AsBody(form));
      } else {
        request := Request(Put, "/owners/" + form["user_id"], AsBody(form));
      }
      if !succeeded {
        message := "Error saving owner.";
        return request, None;
      }
      message := if isNew then "Data added successfully!" else "Data updated successfully!";
      if user.role == "vet" {
        redirect := Some("/vet-dashboard");
      } else if user.role == "admin" {
        redirect := Some("/admin-dashboard");
      } else if user.role == "owner" {
        redirect := Some("/user-dashboard");
      } else {
        redirect := Some("/login");
      }
    }
  }
}
