/**
 * The vaccination list screen: the loaded working set, the searched view of
 * it, the optimistic delete, and the rows of the downloadable report.
 */
module VaccinationList {
  import opened Base
  import opened Entities
  import opened Expiry
  import opened Search
  import opened Routing

  /** `/vaccinations/<id>` under a route id (one animal's records), `/vaccinations` otherwise. */
  function ListEndpoint(routeId: Option<string>): (url: string)
    ensures Truthy(routeId) ==> url == "/vaccinations/" + routeId.value
    ensures !Truthy(routeId) ==> url == "/vaccinations"
  {
    if Truthy(routeId) then "/vaccinations/" + routeId.value else "/vaccinations"
  }

  /** One row of the report table. */
  datatype ReportRow = ReportRow(
    name: string, kind: string, petId: string,
    vaccinationDate: string, validUntil: string, status: string)

  /** `value || "-"`. */
  function OrDash(o: Option<string>): string {
    if Truthy(o) then o.value else "-"
  }

  /**
   * The row of one record; `daysUntil` gives the days from now to a date, or
   * `None` when the text is not a date, and `localeDate` renders a date for
   * the user's locale.
   */
  function RowOf(v: Vaccination, daysUntil: string -> Option<int>, localeDate: Option<string> -> string): ReportRow {
    ReportRow(
      OrDash(v.vaccineName),
      OrDash(v.vaccineType),
      OrDash(v.animalId),
      localeDate(v.vaccinationDate),
      if Truthy(v.validUntil) then localeDate(v.validUntil) else "-",
      ReportStatus(DaysLeft(v, daysUntil)))
  }

  /** Deleting by id from a searched list gives the search of the list after the delete. */
  lemma DeleteKeepsSearch(all: seq<Vaccination>, shown: seq<Vaccination>, searchTerm: string, delId: string)
    requires shown == SearchVaccinations(all, searchTerm)
    ensures RemoveId(shown, VaccinationId, delId) == SearchVaccinations(RemoveId(all, VaccinationId, delId), searchTerm)
  {
    RemoveIdCommutesWithFilter(all, VaccinationId, delId, VaccinationMatcher(searchTerm));
  }

  class VaccinationScreen {
    /** The `:id` route parameter. */
    const routeId: Option<string>
    var vaccinations: seq<Vaccination>
    var filtered: seq<Vaccination>
    var searchTerm: string
    var loading: bool

    constructor (routeId: Option<string>)
      ensures this.routeId == routeId
      ensures vaccinations == [] && filtered == [] && searchTerm == "" && loading
    {
      this.routeId := routeId;
      vaccinations, filtered := [], [];
      searchTerm := "";
      loading := true;
    }

    /** The shown list is the search applied to the working set. */
    predicate Synced()
      reads this
    {
      filtered == SearchVaccinations(vaccinations, searchTerm)
    }

    /**
     * The fetch effect: a response replaces both lists (a null body counts as
     * empty); a failure empties both. Loading ends either way.
     */
    method Fetch(reply: Reply<Option<seq<Vaccination>>>) returns (request: Request)
      modifies this
      ensures request == Request(Get, ListEndpoint(routeId), map[])
      ensures reply.Ok? && reply.data.Some? ==> vaccinations == reply.data.value && filtered == reply.data.value
      ensures reply.Ok? && reply.data.None? ==> vaccinations == [] && filtered == []
      ensures reply.Failed? ==> vaccinations == [] && filtered == []
      ensures searchTerm == old(searchTerm) && !loading
    {
      loading := true;
      request := Request(Get, ListEndpoint(routeId), map[]);
      if reply.Ok? {
        var data := if reply.data.Some? then reply.data.value else [];
        vaccinations := data;
        filtered := data;
      } else {
        vaccinations := [];
        filtered := [];
      }
      loading := false;
    }

    method SetSearchTerm(term: string)
      modifies this
      ensures searchTerm == term
      ensures vaccinations == old(vaccinations) && filtered == old(filtered) && loading == old(loading)
    {
      searchTerm := term;
    }

    /** The search effect, run whenever the term or the working set changes. */
    method RunSearchEffect()
      modifies this
      ensures Synced()
      ensures vaccinations == old(vaccinations) && searchTerm == old(searchTerm) && loading == old(loading)
    {
      filtered := SearchVaccinations(vaccinations, searchTerm);
    }

    /**
     * `handleDelete(delId)`: nothing is requested unless confirmed; after a
     * successful request both lists lose exactly the records with that id, in
     * order, and a list that showed the search still does afterwards.
     */
    method HandleDelete(delId: string, confirmed: bool, succeeded: bool) returns (request: Option<Request>)
      modifies this`vaccinations, this`filtered
      ensures request == if confirmed then Some(Request(Delete, "/vaccinations/" + delId, map[])) else None
      ensures confirmed && succeeded ==>
        vaccinations == RemoveId(old(vaccinations), VaccinationId, delId)
        && filtered == RemoveId(old(filtered), VaccinationId, delId)
      ensures !(confirmed && succeeded) ==> vaccinations == old(vaccinations) && filtered == old(filtered)
      ensures old(Synced()) ==> Synced()
    {
      if !confirmed {
        return None;
      }
      request := Some(Request(Delete, "/vaccinations/" + delId, map[]));
      if succeeded {
        var remaining := RemoveId(vaccinations, VaccinationId, delId);
        var shown := RemoveId(filtered, VaccinationId, delId);
        ghost var before, term := vaccinations, searchTerm;
        if filtered == SearchVaccinations(before, term) {
          DeleteKeepsSearch(before, filtered, term, delId);
        }
        vaccinations, filtered := remaining, shown;
      }
    }

    /**
     * `goToDashboard`: the signed-in user's dashboard. Vets and admins have
     * their own; every other role lands on the owner dashboard.
     */
    method GoToDashboard(user: User) returns (route: string)
      ensures route == "/vet-dashboard" <==> user.role == "vet"
      ensures route == "/admin-dashboard" <==> user.role == "admin"
      ensures route == "/user-dashboard" <==> user.role != "vet" && user.role != "admin"
      ensures route == DashboardRoute(user.role)
    {
      if user.role == "vet" {
        route := "/vet-dashboard";
      } else if user.role == "admin" {
        route := "/admin-dashboard";
      } else {
        route := "/user-dashboard";
      }
    }

    /**
     * The rows of the report: one per loaded record (the whole working set,
     * not the searched view), in list order.
     */
    method ReportRows(daysUntil: string -> Option<int>, localeDate: Option<string> -> string)
      returns (rows: seq<ReportRow>)
      ensures |rows| == |vaccinations|
      ensures forall i :: 0 <= i < |rows| ==> rows[i] == RowOf(vaccinations[i], daysUntil, localeDate)
    {
      rows := [];
      for i := 0 to |vaccinations|
        invariant |rows| == i
        invariant forall k :: 0 <= k < i ==> rows[k] == RowOf(vaccinations[k], daysUntil, localeDate)
      {
        var vaccine := vaccinations[i];
        var daysLeft := DaysLeft(vaccine, daysUntil);
        var status := ReportStatus(daysLeft);
        rows := rows + [ReportRow(
          OrDash(vaccine.vaccineName),
          OrDash(vaccine.vaccineType),
          OrDash(vaccine.animalId),
          localeDate(vaccine.vaccinationDate),
          if Truthy(vaccine.validUntil) then localeDate(vaccine.validUntil) else "-",
          status)];
      }
    }
  }

  /** Every report row carries the status the classification gives its record, and "-" for a missing field. */
  lemma ReportRowMeaning(v: Vaccination, daysUntil: string -> Option<int>, localeDate: Option<string> -> string)
    ensures var row := RowOf(v, daysUntil, localeDate);
      && row.status == ReportText(Classify(DaysLeft(v, daysUntil)))
      && (row.status == "" <==> DaysLeft(v, daysUntil).None?)
      && (!Truthy(v.validUntil) ==> row.status == "")
      && (!Truthy(v.validUntil) ==> row.validUntil == "-")
      && (!Truthy(v.vaccineName) ==> row.name == "-")
      && (!Truthy(v.vaccineType) ==> row.kind == "-")
      && (!Truthy(v.animalId) ==> row.petId == "-")
  {
  }

  /**
   * A `valid_until` that is present but not a date gets no status in the
   * report and no indicator on the card, while its column shows the date
   * rendering of that text.
   */
  lemma UnparseableDateUnclassified(v: Vaccination, daysUntil: string -> Option<int>,
                                    localeDate: Option<string> -> string)
    requires Truthy(v.validUntil) && daysUntil(v.validUntil.value).None?
    ensures RowOf(v, daysUntil, localeDate).status == ""
    ensures RowOf(v, daysUntil, localeDate).validUntil == localeDate(v.validUntil)
    ensures CardIndicator(DaysLeft(v, daysUntil)) == NoIndicator
  {
  }
}
