/**
 * The pet owner's dashboard: the animals of the signed-in account and the
 * optimistic delete.
 */
module OwnerPanel {
  import opened Base
  import opened Entities

  class OwnerScreen {
    var pets: seq<Animal>
    var loading: bool

    constructor ()
      ensures pets == [] && loading
    {
      pets := [];
      loading := true;
    }

    /**
     * The fetch effect: without a signed-in user id nothing is requested and
     * nothing changes, so the screen keeps loading; otherwise the account's
     * animals are requested and loading ends on success and on failure.
     */
    method Load(user: Option<User>, reply: Reply<seq<Animal>>) returns (request: Option<Request>)
      modifies this
      ensures !(user.Some? && user.value.userId != "") ==>
        request == None && pets == old(pets) && loading == old(loading)
      ensures user.Some? && user.value.userId != "" ==>
        request == Some(Request(Get, "/animals/user/" + user.value.userId, map[])) && !loading
        && pets == (if reply.Ok? then reply.data else old(pets))
    {
      if !(user.Some? && user.value.userId != "") {
        return None;
      }
      request := Some(Request(Get, "/animals/user/" + user.value.userId, map[]));
      if reply.Ok? {
        pets := reply.data;
        loading := false;
      } else {
        loading := false;
      }
    }

    /** `handleDelete(id)`: the list changes only after a confirmed, successful request. */
    method HandleDelete(id: string, confirmed: bool, succeeded: bool) returns (request: Option<Request>)
      modifies this`pets
      ensures request == if confirmed then Some(Request(Delete, "/animals/" + id, map[])) else None
      ensures pets == if confirmed && succeeded then RemoveId(old(pets), AnimalId, id) else old(pets)
    {
      if !confirmed {
        return None;
      }
      request := Some(Request(Delete, "/animals/" + id, map[]));
      if succeeded {
        pets := RemoveId(pets, AnimalId, id);
      }
    }
  }
}
