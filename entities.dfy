/**
 * The records the screens receive from the REST backend. Ids are kept as
 * their text; a field the backend may send as null is an `Option`.
 */
module Entities {
  import opened Base

  /** A row of `/users`. */
  datatype Account = Account(id: string, username: string, role: string, active: string)

  /** A row of `/owners`, keyed to an account by `userId`. */
  datatype Owner = Owner(
    id: string, userId: Option<string>,
    firstName: Option<string>, lastName: Option<string>, emso: Option<string>,
    birthDate: Option<string>, email: Option<string>, phone: Option<string>,
    address: Option<string>)

  /**
   * A row of `/animals`, owned by the account `userId`. `height` and `weight`
   * are JSON numbers, held as their JavaScript text `String(n)`.
   */
  datatype Animal = Animal(
    id: string, userId: Option<string>,
    nickname: Option<string>, microchipNumber: Option<string>, species: Option<string>,
    breed: Option<string>, gender: Option<string>, birthDate: Option<string>,
    height: Option<string>, weight: Option<string>)

  /** A row of `/vaccinations`, belonging to the animal `animalId`. */
  datatype Vaccination = Vaccination(
    id: string, animalId: Option<string>,
    vaccineType: Option<string>, vaccineName: Option<string>,
    vaccinationDate: Option<string>, validUntil: Option<string>)

  /**
   * JavaScript truthiness of a JSON number held as its text: a JSON number is
   * finite, so it is falsy exactly when it is null or 0, and 0 (like -0)
   * prints as "0".
   */
  predicate NumberTruthy(n: Option<string>) {
    n.Some? && n.value != "0"
  }

  function AccountId(u: Account): string { u.id }
  function OwnerId(o: Owner): string { o.id }
  function AnimalId(a: Animal): string { a.id }
  function VaccinationId(v: Vaccination): string { v.id }

  /** `Object.values(pet)`: every field of an animal, in the order the backend sends them. */
  function AnimalValues(a: Animal): seq<Option<string>> {
    [Some(a.id), a.userId, a.nickname, a.microchipNumber, a.species, a.breed,
     a.gender, a.birthDate, a.height, a.weight]
  }
}
