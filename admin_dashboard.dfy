/**
 * The admin dashboard: three working sets (accounts, owners, animals), their
 * searched views, the optimistic deletes, and the pending account-status
 * changes that the "Set" button commits.
 */
module AdminPanel {
  import opened Base
  import opened Entities
  import opened Search

  /** A pending change counts only when its value is truthy. */
  predicate HasPending(changes: map<string, string>, userId: string) {
    userId in changes && changes[userId] != ""
  }

  /** The status select shows the pending value when there is one, else the stored `active`. */
  function DisplayedStatus(changes: map<string, string>, u: Account): (shown: string)
    ensures HasPending(changes, u.id) ==> shown == changes[u.id]
    ensures !HasPending(changes, u.id) ==> shown == u.active
  {
    if HasPending(changes, u.id) then changes[u.id] else u.active
  }

  /** `users.map(u => u.id === userId ? { ...u, active: status } : u)`. */
  function MarkActive(users: seq<Account>, userId: string, status: string): (r: seq<Account>)
    ensures |r| == |users|
    ensures forall i :: 0 <= i < |users| ==>
      r[i] == if users[i].id == userId then users[i].(active := status) else users[i]
    decreases |users|
  {
    if users == [] then []
    else [if users[0].id == userId then users[0].(active := status) else users[0]]
         + MarkActive(users[1..], userId, status)
  }

  /**
   * Committing a pending change leaves every row showing what it showed before:
   * the committed account now stores the value that was pending for it.
   */
  lemma CommitKeepsDisplay(changes: map<string, string>, users: seq<Account>, userId: string)
    requires HasPending(changes, userId)
    ensures var after := MarkActive(users, userId, changes[userId]);
      forall i :: 0 <= i < |users| ==>
        DisplayedStatus(changes - {userId}, after[i]) == DisplayedStatus(changes, users[i])
  {
  }

  class AdminScreen {
    var users: seq<Account>
    var owners: seq<Owner>
    var animals: seq<Animal>
    var loadingUsers: bool
    var loadingOwners: bool
    var loadingAnimals: bool
    var statusChanges: map<string, string>
    var userSearch: string
    var ownerSearch: string
    var animalSearch: string

    constructor ()
      ensures users == [] && owners == [] && animals == []
      ensures loadingUsers && loadingOwners && loadingAnimals
      ensures statusChanges == map[]
      ensures userSearch == "" && ownerSearch == "" && animalSearch == ""
    {
      users, owners, animals := [], [], [];
      loadingUsers, loadingOwners, loadingAnimals := true, true, true;
      statusChanges := map[];
      userSearch, ownerSearch, animalSearch := "", "", "";
    }

    /** The rows each table shows: its list searched with its own query. */
    function FilteredUsers(): (r: seq<Account>)
      reads this
      ensures IsSubsequence(r, users)
      ensures userSearch == "" ==> r == users
    {
      SearchAccounts(users, userSearch)
    }

    function FilteredOwners(): (r: seq<Owner>)
      reads this
      ensures IsSubsequence(r, owners)
      ensures ownerSearch == "" ==> r == owners
    {
      SearchOwners(owners, ownerSearch)
    }

    function FilteredAnimals(): (r: seq<Animal>)
      reads this
      ensures IsSubsequence(r, animals)
      ensures forall i :: 0 <= i < |r| ==> r[i] in animals && AnimalMatches(r[i], animalSearch)
    {
      SearchAnimals(animals, animalSearch)
    }

    /**
     * The mount effect: without a signed-in user id nothing is fetched;
     * otherwise the three lists are fetched independently, each replaced by
     * its response and kept on failure.
     */
    method Load(user: Option<User>, usersReply: Reply<seq<Account>>, ownersReply: Reply<seq<Owner>>,
                animalsReply: Reply<seq<Animal>>)
      returns (requests: seq<Request>)
      modifies this
      ensures !(user.Some? && user.value.userId != "") ==>
        requests == [] && users == old(users) && owners == old(owners) && animals == old(animals)
        && loadingUsers == old(loadingUsers) && loadingOwners == old(loadingOwners)
        && loadingAnimals == old(loadingAnimals)
      ensures user.Some? && user.value.userId != "" ==>
        requests == [Request(Get, "/users", map[]), Request(Get, "/owners", map[]), Request(Get, "/animals", map[])]
        && users == (if usersReply.Ok? then usersReply.data else old(users))
        && owners == (if ownersReply.Ok? then ownersReply.data else old(owners))
        && animals == (if animalsReply.Ok? then animalsReply.data else old(animals))
        && !loadingUsers && !loadingOwners && !loadingAnimals
      ensures statusChanges == old(statusChanges)
      ensures userSearch == old(userSearch) && ownerSearch == old(ownerSearch) && animalSearch == old(animalSearch)
    {
      if !(user.Some? && user.value.userId != "") {
        return [];
      }
      loadingUsers := true;
      if usersReply.Ok? { users := usersReply.data; }
      loadingUsers := false;
      loadingOwners := true;
      if ownersReply.Ok? { owners := ownersReply.data; }
      loadingOwners := false;
      loadingAnimals := true;
      if animalsReply.Ok? { animals := animalsReply.data; }
      loadingAnimals := false;
      requests := [Request(Get, "/users", map[]), Request(Get, "/owners", map[]), Request(Get, "/animals", map[])];
    }

    /** The account table's search bar: only its own query changes. */
    method SetUserSearch(query: string)
      modifies this`userSearch
      ensures userSearch == query
    {
      userSearch := query;
    }

    /** The owner table's search bar. */
    method SetOwnerSearch(query: string)
      modifies this`ownerSearch
      ensures ownerSearch == query
    {
      ownerSearch := query;
    }

    /** The animal table's search bar. */
    method SetAnimalSearch(query: string)
      modifies this`animalSearch
      ensures animalSearch == query
    {
      animalSearch := query;
    }

    /** `handleActiveChange`: records a pending value for one account and keeps every other entry. */
    method HandleActiveChange(userId: string, newStatus: string)
      modifies this`statusChanges
      ensures statusChanges == old(statusChanges)[userId := newStatus]
      ensures forall id :: id in old(statusChanges) && id != userId ==>
        id in statusChanges && statusChanges[id] == old(statusChanges)[id]
      ensures newStatus != "" ==> HasPending(statusChanges, userId) && statusChanges[userId] == newStatus
    {
      statusChanges := statusChanges[userId := newStatus];
    }

    method HandleDeleteUser(userId: string, confirmed: bool, succeeded: bool)
      returns (request: Option<Request>, alertText: Option<string>)
      modifies this`users
      ensures request == if confirmed then Some(Request(Delete, "/users/" + userId, map[])) else None
      ensures users == if confirmed && succeeded then RemoveId(old(users), AccountId, userId) else old(users)
      ensures owners == old(owners) && animals == old(animals)
      ensures alertText == if !confirmed then None
        else if succeeded then Some("User deleted successfully!") else Some("Failed to delete user")
    {
      if !confirmed {
        return None, None;
      }
      request := Some(Request(Delete, "/users/" + userId, map[]));
      if succeeded {
        users := RemoveId(users, AccountId, userId);
        alertText := Some("User deleted successfully!");
      } else {
        alertText := Some("Failed to delete user");
      }
    }

    method HandleDeleteOwner(ownerId: string, confirmed: bool, succeeded: bool)
      returns (request: Option<Request>, alertText: Option<string>)
      modifies this`owners
      ensures request == if confirmed then Some(Request(Delete, "/owners/" + ownerId, map[])) else None
      ensures owners == if confirmed && succeeded then RemoveId(old(owners), OwnerId, ownerId) else old(owners)
      ensures users == old(users) && animals == old(animals)
      ensures alertText == if !confirmed then None
        else if succeeded then Some("Owner deleted successfully!") else Some("Failed to delete owner")
    {
      if !confirmed {
        return None, None;
      }
      request := Some(Request(Delete, "/owners/" + ownerId, map[]));
      if succeeded {
        owners := RemoveId(owners, OwnerId, ownerId);
        alertText := Some("Owner deleted successfully!");
      } else {
        alertText := Some("Failed to delete owner");
      }
    }

    method HandleDeleteAnimal(animalId: string, confirmed: bool, succeeded: bool)
      returns (request: Option<Request>, alertText: Option<string>)
      modifies this`animals
      ensures request == if confirmed then Some(Request(Delete, "/animals/" + animalId, map[])) else None
      ensures animals == if confirmed && succeeded then RemoveId(old(animals), AnimalId, animalId) else old(animals)
      ensures users == old(users) && owners == old(owners)
      ensures alertText == if !confirmed then None
        else if succeeded then Some("Animal deleted successfully!") else Some("Failed to delete animal")
    {
      if !confirmed {
        return None, None;
      }
      request := Some(Request(Delete, "/animals/" + animalId, map[]));
      if succeeded {
        animals := RemoveId(animals, AnimalId, animalId);
        alertText := Some("Animal deleted successfully!");
      } else {
        alertText := Some("Failed to delete animal");
      }
    }

    /**
     * `handleSetActive(userId)`: without a pending change nothing is sent;
     * otherwise the pending value is PATCHed and, on success, written into
     * the matching accounts and dropped from the pending map.
     */
    method HandleSetActive(userId: string, succeeded: bool) returns (request: Option<Request>, alertText: string)
      modifies this`users, this`statusChanges
      ensures !old(HasPending(statusChanges, userId)) ==>
        request == None && alertText == "No change detected"
        && users == old(users) && statusChanges == old(statusChanges)
      ensures old(HasPending(statusChanges, userId)) ==>
        request == Some(Request(Patch, "/users/" + userId, map["active" := Str(old(statusChanges)[userId])]))
      ensures old(HasPending(statusChanges, userId)) && succeeded ==>
        users == MarkActive(old(users), userId, old(statusChanges)[userId])
        && statusChanges == old(statusChanges) - {userId}
        && alertText == "User active status updated successfully!"
      ensures old(HasPending(statusChanges, userId)) && !succeeded ==>
        users == old(users) && statusChanges == old(statusChanges)
        && alertText == "Failed to update active status"
      ensures forall i :: 0 <= i < |users| ==>
        DisplayedStatus(statusChanges, users[i]) == DisplayedStatus(old(statusChanges), old(users)[i])
    {
      if !HasPending(statusChanges, userId) {
        return None, "No change detected";
      }
      var newStatus := statusChanges[userId];
      request := Some(Request(Patch, "/users/" + userId, map["active" := Str(newStatus)]));
      if succeeded {
        CommitKeepsDisplay(statusChanges, users, userId);
        users := MarkActive(users, userId, newStatus);
        var copy := statusChanges;
        copy := copy - {userId};
        statusChanges := copy;
        alertText := "User active status updated successfully!";
      } else {
        alertText := "Failed to update active status";
      }
    }
  }
}
