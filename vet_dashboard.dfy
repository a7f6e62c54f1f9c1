/**
 * The veterinary dashboard: every animal of the clinic, the any-field search
 * kept in the URL, and the optimistic delete.
 */
module VetPanel {
  import opened Base
  import opened Entities
  import opened Text
  import opened Search

  /**
   * The `search` part of the URL pushed by a search; `encode` stands for
   * `encodeURIComponent`.
   */
  function SearchString(query: string, encode: string -> string): (search: string)
    ensures query != "" <==> search != ""
    ensures query != "" ==> search == "?search=" + encode(query)
  {
    if query != "" then "?search=" + encode(query) else ""
  }

  /** Deleting a pet and then searching gives the searched list without that pet. */
  lemma SearchPetsAfterDelete(pets: seq<Animal>, searchQuery: string, id: string)
    ensures SearchPets(RemoveId(pets, AnimalId, id), searchQuery)
         == RemoveId(SearchPets(pets, searchQuery), AnimalId, id)
  {
    var query := Lower(searchQuery);
    if query != "" {
      RemoveIdCommutesWithFilter(pets, AnimalId, id, PetMatcher(query));
    }
  }

  class VetScreen {
    var pets: seq<Animal>
    var filteredPets: seq<Animal>
    var searchQuery: string
    var loading: bool

    constructor ()
      ensures pets == [] && filteredPets == [] && searchQuery == "" && loading
    {
      pets, filteredPets := [], [];
      searchQuery := "";
      loading := true;
    }

    /** The shown list is the search applied to the working set. */
    predicate Synced()
      reads this
    {
      filteredPets == SearchPets(pets, searchQuery)
    }

    /** The effect on the URL: the `search` parameter, or '' when there is none. */
    method ReadSearchFromUrl(param: Option<string>)
      modifies this`searchQuery
      ensures searchQuery == OrEmpty(param)
    {
      searchQuery := OrEmpty(param);
    }

    /**
     * The fetch effect: nothing without a signed-in user id; otherwise a
     * response replaces both lists and a failure keeps them. Loading ends either way.
     */
    method Load(user: Option<User>, reply: Reply<seq<Animal>>) returns (request: Option<Request>)
      modifies this`pets, this`filteredPets, this`loading
      ensures !(user.Some? && user.value.userId != "") ==>
        request == None && pets == old(pets) && filteredPets == old(filteredPets) && loading == old(loading)
      ensures user.Some? && user.value.userId != "" ==>
        request == Some(Request(Get, "/animals", map[])) && !loading
        && (reply.Ok? ==> pets == reply.data && filteredPets == reply.data)
        && (reply.Failed? ==> pets == old(pets) && filteredPets == old(filteredPets))
    {
      if !(user.Some? && user.value.userId != "") {
        return None;
      }
      loading := true;
      request := Some(Request(Get, "/animals", map[]));
      if reply.Ok? {
        pets := reply.data;
        filteredPets := reply.data;
      }
      loading := false;
    }

    /** The filter effect, run whenever the query or the working set changes. */
    method RunFilterEffect()
      modifies this`filteredPets
      ensures Synced()
      ensures searchQuery == "" ==> filteredPets == pets
      ensures IsSubsequence(filteredPets, pets)
    {
      var query := Lower(searchQuery);
      if query == "" {
        SubsequenceReflexive(pets);
        filteredPets := pets;
      } else {
        filteredPets := Filter(pets, PetMatcher(query));
      }
    }

    /** `handleSearch(query)`: stores the query and returns the location to navigate to. */
    method HandleSearch(query: string, encode: string -> string) returns (pathname: string, search: string)
      modifies this`searchQuery
      ensures searchQuery == query
      ensures pathname == "/vet-dashboard"
      ensures search == SearchString(query, encode)
    {
      searchQuery := query;
      pathname := "/vet-dashboard";
      search := if query != "" then "?search=" + encode(query) else "";
    }

    /**
     * `handleDelete(id)`: only the working set changes, and only after a
     * confirmed, successful request.
     */
    method HandleDelete(id: string, confirmed: bool, succeeded: bool) returns (request: Option<Request>)
      modifies this`pets
      ensures request == if confirmed then Some(Request(Delete, "/animals/" + id, map[])) else None
      ensures pets == if confirmed && succeeded then RemoveId(old(pets), AnimalId, id) else old(pets)
    {
      if !confirmed {
        return None;
      }
      request := Some(Request(Delete, "/animals/" + id, map[]));
      if succeeded {
        pets := RemoveId(pets, AnimalId, id);
      }
    }
  }

  /**
   * After a delete the filter effect shows the previously shown list minus
   * the deleted pet: deleting never brings back a pet the search had hidden.
   */
  method DeleteThenFilter(screen: VetScreen, id: string, confirmed: bool, succeeded: bool)
    requires screen.Synced()
    modifies screen
    ensures screen.Synced()
    ensures screen.filteredPets
         == if confirmed && succeeded then RemoveId(old(screen.filteredPets), AnimalId, id)
            else old(screen.filteredPets)
  {
    ghost var before, query := screen.pets, screen.searchQuery;
    SearchPetsAfterDelete(before, query, id);
    var _ := screen.HandleDelete(id, confirmed, succeeded);
    assert screen.searchQuery == query;
    screen.RunFilterEffect();
  }
}
