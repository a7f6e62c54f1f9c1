/**
 * The local text searches of the screens. Each is a case-insensitive
 * substring test over a fixed set of displayed fields, applied with the
 * order-preserving `filter` to a list already fetched; none reaches the server.
 */
module Search {
  import opened Base
  import opened Text
  import opened Entities

  /** Filters that agree on every element of the list give the same result. */
  lemma {:induction false} FilterCongruent<T>(s: seq<T>, p: T -> bool, q: T -> bool)
    requires forall i :: 0 <= i < |s| ==> p(s[i]) == q(s[i])
    ensures Filter(s, p) == Filter(s, q)
    decreases |s|
  {
    if s != [] {
      FilterCongruent(s[1..], p, q);
    }
  }

  // ---- vaccination list ----

  /**
   * The vaccination list's test: the lower-cased name or type contains the
   * lower-cased term, or the text of `animal_id` (not lower-cased) does; a
   * missing field counts as ''.
   */
  predicate VaccinationMatches(v: Vaccination, searchTerm: string) {
    var term := Lower(searchTerm);
    Contains(Lower(OrEmpty(v.vaccineName)), term)
    || Contains(Lower(OrEmpty(v.vaccineType)), term)
    || Contains(OrEmpty(v.animalId), term)
  }

  function VaccinationMatcher(searchTerm: string): Vaccination -> bool {
    v => VaccinationMatches(v, searchTerm)
  }

  function SearchVaccinations(s: seq<Vaccination>, searchTerm: string): (r: seq<Vaccination>)
    ensures IsSubsequence(r, s)
    ensures forall i :: 0 <= i < |r| ==> r[i] in s && VaccinationMatches(r[i], searchTerm)
    ensures forall i :: 0 <= i < |s| && VaccinationMatches(s[i], searchTerm) ==> s[i] in r
    ensures forall x {:trigger multiset(r)[x]} :: multiset(r)[x] == if VaccinationMatches(x, searchTerm) then multiset(s)[x] else 0
    ensures searchTerm == "" ==> r == s
  {
    assert searchTerm == "" ==> forall i :: 0 <= i < |s| ==> VaccinationMatches(s[i], searchTerm) by {
      forall i | 0 <= i < |s| && searchTerm == "" { ContainsEmpty(Lower(OrEmpty(s[i].vaccineName))); }
    }
    assert forall x :: multiset(Filter(s, VaccinationMatcher(searchTerm)))[x] == if VaccinationMatcher(searchTerm)(x) then multiset(s)[x] else 0 by {
      forall x { FilterCount(s, VaccinationMatcher(searchTerm), x); }
    }
    Filter(s, VaccinationMatcher(searchTerm))
  }

  /** The search ignores the case of the term. */
  lemma SearchVaccinationsIgnoresCase(s: seq<Vaccination>, t1: string, t2: string)
    requires Lower(t1) == Lower(t2)
    ensures SearchVaccinations(s, t1) == SearchVaccinations(s, t2)
  {
    FilterCongruent(s, VaccinationMatcher(t1), VaccinationMatcher(t2));
  }

  // ---- admin dashboard ----

  /** The account table's test: username or role contains the query, ignoring case. */
  predicate AccountMatches(u: Account, query: string) {
    Contains(Lower(u.username), Lower(query)) || Contains(Lower(u.role), Lower(query))
  }

  function AccountMatcher(query: string): Account -> bool {
    u => AccountMatches(u, query)
  }

  function SearchAccounts(s: seq<Account>, query: string): (r: seq<Account>)
    ensures IsSubsequence(r, s)
    ensures forall i :: 0 <= i < |r| ==> r[i] in s && AccountMatches(r[i], query)
    ensures forall i :: 0 <= i < |s| && AccountMatches(s[i], query) ==> s[i] in r
    ensures forall x {:trigger multiset(r)[x]} :: multiset(r)[x] == if AccountMatches(x, query) then multiset(s)[x] else 0
    ensures query == "" ==> r == s
  {
    assert query == "" ==> forall i :: 0 <= i < |s| ==> AccountMatches(s[i], query) by {
      forall i | 0 <= i < |s| && query == "" { ContainsEmpty(Lower(s[i].username)); }
    }
    assert forall x :: multiset(Filter(s, AccountMatcher(query)))[x] == if AccountMatcher(query)(x) then multiset(s)[x] else 0 by {
      forall x { FilterCount(s, AccountMatcher(query), x); }
    }
    Filter(s, AccountMatcher(query))
  }

  /** Searching accounts for "ADM" gives what searching for "adm" gives. */
  lemma SearchAccountsIgnoresCase(s: seq<Account>, q1: string, q2: string)
    requires Lower(q1) == Lower(q2)
    ensures SearchAccounts(s, q1) == SearchAccounts(s, q2)
  {
    FilterCongruent(s, AccountMatcher(q1), AccountMatcher(q2));
  }

  /** A template literal's rendering of a nullable field: null prints as "null". */
  function TemplateText(o: Option<string>): string {
    match o
    case None => "null"
    case Some(s) => s
  }

  /** `${first_name} ${last_name}`. */
  function FullName(o: Owner): string {
    TemplateText(o.firstName) + " " + TemplateText(o.lastName)
  }

  /** The owner table's test: the lower-cased full name contains the lower-cased query. */
  predicate OwnerMatches(o: Owner, query: string) {
    Contains(Lower(FullName(o)), Lower(query))
  }

  function OwnerMatcher(query: string): Owner -> bool {
    o => OwnerMatches(o, query)
  }

  function SearchOwners(s: seq<Owner>, query: string): (r: seq<Owner>)
    ensures IsSubsequence(r, s)
    ensures forall i :: 0 <= i < |r| ==> r[i] in s && OwnerMatches(r[i], query)
    ensures forall i :: 0 <= i < |s| && OwnerMatches(s[i], query) ==> s[i] in r
    ensures forall x {:trigger multiset(r)[x]} :: multiset(r)[x] == if OwnerMatches(x, query) then multiset(s)[x] else 0
    ensures query == "" ==> r == s
  {
    assert query == "" ==> forall i :: 0 <= i < |s| ==> OwnerMatches(s[i], query) by {
      forall i | 0 <= i < |s| && query == "" { ContainsEmpty(Lower(FullName(s[i]))); }
    }
    assert forall x :: multiset(Filter(s, OwnerMatcher(query)))[x] == if OwnerMatcher(query)(x) then multiset(s)[x] else 0 by {
      forall x { FilterCount(s, OwnerMatcher(query), x); }
    }
    Filter(s, OwnerMatcher(query))
  }

  /**
   * An owner is found by any part of the first or the last name; an owner
   * without a first name is also found by "null", which the full name then spells.
   */
  lemma OwnerFoundByEitherName(o: Owner, query: string)
    ensures Contains(Lower(TemplateText(o.firstName)), Lower(query)) ==> OwnerMatches(o, query)
    ensures Contains(Lower(TemplateText(o.lastName)), Lower(query)) ==> OwnerMatches(o, query)
    ensures o.firstName == None ==> OwnerMatches(o, "null")
  {
    var first, last := TemplateText(o.firstName), TemplateText(o.lastName);
    LowerConcat(first + " ", last);
    LowerConcat(first, " ");
    assert Lower(FullName(o)) == Lower(first) + Lower(" ") + Lower(last);
    ContainsExtended(Lower(first), Lower(" "), Lower(query));
    ContainsExtended(Lower(first) + Lower(" "), Lower(last), Lower(query));
    if o.firstName == None {
      assert Lower("null") == "null";
      assert OccursAt(Lower(first), "null", 0);
      ContainsExtended(Lower(first), Lower(" "), "null");
      ContainsExtended(Lower(first) + Lower(" "), Lower(last), "null");
    }
  }

  /** `field?.toLowerCase().includes(search) ?? false`: an absent field never matches. */
  predicate PresentAndContains(field: Option<string>, search: string) {
    field.Some? && Contains(Lower(field.value), search)
  }

  /** The animal table's test over nickname, species, breed and microchip number. */
  predicate AnimalMatches(a: Animal, query: string) {
    var search := Lower(query);
    PresentAndContains(a.nickname, search)
    || PresentAndContains(a.species, search)
    || PresentAndContains(a.breed, search)
    || PresentAndContains(a.microchipNumber, search)
  }

  function AnimalMatcher(query: string): Animal -> bool {
    a => AnimalMatches(a, query)
  }

  function SearchAnimals(s: seq<Animal>, query: string): (r: seq<Animal>)
    ensures IsSubsequence(r, s)
    ensures forall i :: 0 <= i < |r| ==> r[i] in s && AnimalMatches(r[i], query)
    ensures forall i :: 0 <= i < |s| && AnimalMatches(s[i], query) ==> s[i] in r
    ensures forall x {:trigger multiset(r)[x]} :: multiset(r)[x] == if AnimalMatches(x, query) then multiset(s)[x] else 0
  {
    assert forall x :: multiset(Filter(s, AnimalMatcher(query)))[x] == if AnimalMatcher(query)(x) then multiset(s)[x] else 0 by {
      forall x { FilterCount(s, AnimalMatcher(query), x); }
    }
    Filter(s, AnimalMatcher(query))
  }

  /**
   * Absent fields never match, even the empty query: with "" the table keeps
   * exactly the animals that have at least one of the four searched fields.
   */
  lemma EmptyAnimalQuery(a: Animal)
    ensures AnimalMatches(a, "")
      <==> a.nickname.Some? || a.species.Some? || a.breed.Some? || a.microchipNumber.Some?
  {
    if a.nickname.Some? { ContainsEmpty(Lower(a.nickname.value)); }
    if a.species.Some? { ContainsEmpty(Lower(a.species.value)); }
    if a.breed.Some? { ContainsEmpty(Lower(a.breed.value)); }
    if a.microchipNumber.Some? { ContainsEmpty(Lower(a.microchipNumber.value)); }
  }

  // ---- vet dashboard ----

  /** `values.some(val => val?.toString().toLowerCase().includes(query))`. */
  function SomeValueContains(values: seq<Option<string>>, query: string): (b: bool)
    ensures b <==> exists i :: 0 <= i < |values| && PresentAndContains(values[i], query)
    decreases |values|
  {
    if values == [] then false
    else PresentAndContains(values[0], query) || SomeValueContains(values[1..], query)
  }

  /** The vet dashboard's any-field test; `query` is already lower-cased by the caller. */
  predicate PetMatches(a: Animal, query: string) {
    SomeValueContains(AnimalValues(a), query)
  }

  function PetMatcher(query: string): Animal -> bool {
    a => PetMatches(a, query)
  }

  /**
   * The vet dashboard's filter effect: an empty query shows every pet; any
   * other query keeps, in order, the pets of which some non-null field's
   * lower-cased text contains it.
   */
  function SearchPets(pets: seq<Animal>, searchQuery: string): (r: seq<Animal>)
    ensures IsSubsequence(r, pets)
    ensures searchQuery == "" ==> r == pets
    ensures searchQuery != "" ==> forall i :: 0 <= i < |r| ==>
      r[i] in pets
      && (exists k :: 0 <= k < |AnimalValues(r[i])| && PresentAndContains(AnimalValues(r[i])[k], Lower(searchQuery)))
    ensures forall i :: 0 <= i < |pets| && PetMatches(pets[i], Lower(searchQuery)) ==> pets[i] in r
    ensures forall x {:trigger multiset(r)[x]} :: multiset(r)[x]
                        == (if searchQuery == "" || PetMatches(x, Lower(searchQuery)) then multiset(pets)[x] else 0)
  {
    var query := Lower(searchQuery);
    if query == "" then
      SubsequenceReflexive(pets);
      pets
    else
      assert forall x :: multiset(Filter(pets, PetMatcher(query)))[x]
                         == (if PetMatcher(query)(x) then multiset(pets)[x] else 0) by {
        forall x { FilterCount(pets, PetMatcher(query), x); }
      }
      Filter(pets, PetMatcher(query))
  }
}
