/** The pet request handlers: list, get, create, partial update and delete over
    the `pets` collection. Every id from the route is checked for well-formedness
    before the store is consulted. */
module PetsController {
  import opened JsValues
  import opened ObjectIds
  import opened Responses
  import opened Listing
  import opened PetModel
  import opened Store

  const InvalidPetId := "Invalid petId"
  const PetNotFound := "Pet not found"
  const NameAndTypeRequired := "Fields 'name' and 'type' are required"
  const InvalidBirthDate := "'birthDate' must be a valid date"

  /** The keys updatePet lets a body change. */
  const PetUpdateKeys: set<string> := {"name", "type", "breed", "birthDate"}

  /** The sort key of `sort({ createdAt: -1 })`. */
  function NewestFirst(p: Pet): int
  {
    -p.createdAt
  }

  /** listPets: every stored pet and nothing else, newest first. */
  ghost function ListPets(pets: map<string, Pet>): (r: seq<Pet>)
    ensures |r| == |pets|
    ensures forall p :: p in r <==> p in pets.Values
    ensures PetTableValid(pets) ==> forall p :: multiset(r)[p] == if p in pets.Values then 1 else 0
    ensures forall i, j :: 0 <= i < j < |r| ==> r[i].createdAt >= r[j].createdAt
  {
    var r := SortedValues(pets, NewestFirst);
    assert PetTableValid(pets) ==> Injective(pets);
    assert forall i, j :: 0 <= i < j < |r| ==> NewestFirst(r[i]) <= NewestFirst(r[j]);
    r
  }

  /** getPet: 400 for a malformed id, 404 when no pet has it, else that pet. */
  function GetPet(pets: map<string, Pet>, petId: string): (r: Outcome<Pet>)
    requires PetTableValid(pets)
    ensures !ValidId(petId) ==> r == BadRequest(InvalidPetId)
    ensures ValidId(petId) && Canon(petId) !in pets ==> r == NotFound(PetNotFound)
    ensures r.Ok? <==> ValidId(petId) && Canon(petId) in pets
    ensures r.Ok? ==> r.value in pets.Values && r.value.id == Canon(petId) && ValidPet(r.value)
  {
    if !ValidId(petId) then BadRequest(InvalidPetId)
    else if Canon(petId) !in pets then NotFound(PetNotFound)
    else Ok(pets[Canon(petId)])
  }

  /** createPet. Checks run in the source's order: `name` and `type` present
      and truthy (400), then `birthDate` parses when it is not null (400), then
      the schema (500). On success the new pet, under the fresh id `newId`,
      holds only name, type, breed (when not null) and the parsed birthDate. */
  method CreatePet(db: Db, body: Body, parseDate: Value -> Option<Date>, newId: string, now: Date)
    returns (r: Outcome<Pet>)
    requires db.Valid() && IsCanonical(newId) && newId !in db.pets
    modifies db
    ensures db.Valid() && db.reminders == old(db.reminders)
    ensures !r.Created? ==> db.pets == old(db.pets)
    ensures r.Created? ==> db.pets == old(db.pets)[newId := r.value]
    ensures !Truthy(Field(body, "name")) || !Truthy(Field(body, "type"))
            ==> r == BadRequest(NameAndTypeRequired)
    ensures Truthy(Field(body, "name")) && Truthy(Field(body, "type"))
            && NotNullish(Field(body, "birthDate")) && parseDate(body["birthDate"]).None?
            ==> r == BadRequest(InvalidBirthDate)
    ensures r.BadRequest? ==> r.msg in {NameAndTypeRequired, InvalidBirthDate}
    ensures r.Created? <==>
              && Truthy(Field(body, "name")) && Truthy(Field(body, "type"))
              && (NotNullish(Field(body, "birthDate")) ==> parseDate(body["birthDate"]).Some?)
              && CastRequiredText(body["name"]).Some? && CastRequiredText(body["type"]).Some?
    ensures r.Created? ==>
              && r.value.id == newId && r.value.createdAt == now && r.value.updatedAt == now
              && Some(r.value.name) == CastRequiredText(body["name"])
              && Some(r.value.kind) == CastRequiredText(body["type"])
              && r.value.breed == (if NotNullish(Field(body, "breed")) then CastOptionalText(body["breed"]) else None)
              && r.value.birthDate == (if NotNullish(Field(body, "birthDate")) then parseDate(body["birthDate"]) else None)
    ensures !r.Created? ==> r.BadRequest? || r == ServerError
    ensures r == ServerError <==>
              && Truthy(Field(body, "name")) && Truthy(Field(body, "type"))
              && (NotNullish(Field(body, "birthDate")) ==> parseDate(body["birthDate"]).Some?)
              && (CastRequiredText(body["name"]).None? || CastRequiredText(body["type"]).None?)
  {
    var name, kind := Field(body, "name"), Field(body, "type");
    var breed, birthDate := Field(body, "breed"), Field(body, "birthDate");
    if !Truthy(name) || !Truthy(kind) {
      return BadRequest(NameAndTypeRequired);
    }
    var breedToSave := if NotNullish(breed) then breed else None;
    var birthToSave: Option<Date> := None;
    if NotNullish(birthDate) {
      var d := parseDate(birthDate.value);
      if d.None? {
        return BadRequest(InvalidBirthDate);
      }
      birthToSave := d;
    }
    var pet := NewPet(newId, name.value, kind.value, breedToSave, birthToSave, now);
    if pet.None? {
      return ServerError;
    }
    PetTableStore(db.pets, pet.value);
    db.pets := db.pets[newId := pet.value];
    r := Created(pet.value);
  }

  /** The updates the whitelist collects from the keys of `body` in `seen`: an
      allowed key is copied, except that `birthDate` is kept only when it
      parses; every other key is dropped. */
  function PetUpdatesFrom(body: Body, parseDate: Value -> Option<Date>, seen: set<string>): PetUpdates
  {
    PetUpdates(
      name := if "name" in seen && "name" in body then Some(body["name"]) else None,
      kind := if "type" in seen && "type" in body then Some(body["type"]) else None,
      breed := if "breed" in seen && "breed" in body then Some(body["breed"]) else None,
      birthDate := if "birthDate" in seen && "birthDate" in body then parseDate(body["birthDate"]) else None)
  }

  /** The updates updatePet collects from the whole body. */
  function WhitelistPetUpdates(body: Body, parseDate: Value -> Option<Date>): PetUpdates
  {
    PetUpdatesFrom(body, parseDate, body.Keys)
  }

  /** The `forEach` over `Object.keys(req.body)` that fills `updates`. */
  method CollectPetUpdates(body: Body, parseDate: Value -> Option<Date>) returns (u: PetUpdates)
    ensures u == WhitelistPetUpdates(body, parseDate)
  {
    u := NoPetUpdates;
    var keys := body.Keys;
    while keys != {}
      invariant keys <= body.Keys
      invariant u == PetUpdatesFrom(body, parseDate, body.Keys - keys)
      decreases keys
    {
      var k :| k in keys;
      if k in PetUpdateKeys {
        if k == "birthDate" {
          var d := parseDate(body[k]);
          if d.Some? {
            u := u.(birthDate := d);
          }
        } else if k == "name" {
          u := u.(name := Some(body[k]));
        } else if k == "type" {
          u := u.(kind := Some(body[k]));
        } else {
          u := u.(breed := Some(body[k]));
        }
      }
      keys := keys - {k};
    }
  }

  /** A key outside the whitelist has no effect on the updates, whatever its value. */
  lemma UnknownPetKeyIgnored(body: Body, parseDate: Value -> Option<Date>, k: string, v: Value)
    requires k !in PetUpdateKeys
    ensures WhitelistPetUpdates(body[k := v], parseDate) == WhitelistPetUpdates(body, parseDate)
  {
  }

  /** An unparseable `birthDate` is skipped on its own: the updates are those of
      the body without it, so the other allowed fields still apply. */
  lemma UnparseableBirthDateSkipped(body: Body, parseDate: Value -> Option<Date>)
    requires "birthDate" in body && parseDate(body["birthDate"]).None?
    ensures WhitelistPetUpdates(body, parseDate) == WhitelistPetUpdates(body - {"birthDate"}, parseDate)
    ensures WhitelistPetUpdates(body, parseDate).birthDate.None?
  {
  }

  /** updatePet. A malformed id is a 400 before anything else; then the
      whitelisted updates are validated (500 when a required path would be
      emptied); then a missing pet is a 404. On success exactly that pet is
      replaced by its updated form. */
  method UpdatePet(db: Db, petId: string, body: Body, parseDate: Value -> Option<Date>, now: Date)
    returns (r: Outcome<Pet>)
    requires db.Valid()
    modifies db
    ensures db.Valid() && db.reminders == old(db.reminders)
    ensures !r.Ok? ==> db.pets == old(db.pets)
    ensures r.Ok? ==> db.pets == old(db.pets)[r.value.id := r.value]
    ensures !ValidId(petId) ==> r == BadRequest(InvalidPetId)
    ensures ValidId(petId) ==>
              var u := WhitelistPetUpdates(body, parseDate);
              if !PetUpdatesConform(u) then r == ServerError
              else if Canon(petId) !in old(db.pets) then r == NotFound(PetNotFound)
              else r == Ok(ApplyPetUpdates(old(db.pets)[Canon(petId)], u, now))
  {
    if !ValidId(petId) {
      return BadRequest(InvalidPetId);
    }
    var updates := CollectPetUpdates(body, parseDate);
    if !PetUpdatesConform(updates) {
      return ServerError;
    }
    var key := Canon(petId);
    if key !in db.pets {
      return NotFound(PetNotFound);
    }
    var pet := ApplyPetUpdates(db.pets[key], updates, now);
    PetTableStore(db.pets, pet);
    db.pets := db.pets[key := pet];
    r := Ok(pet);
  }

  /** deletePet: 400 for a malformed id, 404 when no pet has it; otherwise that
      pet, and only it, is removed. Reminders are never touched. */
  method DeletePet(db: Db, petId: string) returns (r: Outcome<Deleted>)
    requires db.Valid()
    modifies db
    ensures db.Valid() && db.reminders == old(db.reminders)
    ensures !ValidId(petId) ==> r == BadRequest(InvalidPetId)
    ensures ValidId(petId) && Canon(petId) !in old(db.pets) ==> r == NotFound(PetNotFound)
    ensures r.Ok? <==> ValidId(petId) && Canon(petId) in old(db.pets)
    ensures r.Ok? ==> r.value == Deleted(Canon(petId)) && db.pets == old(db.pets) - {Canon(petId)}
    ensures !r.Ok? ==> db.pets == old(db.pets)
  {
    if !ValidId(petId) {
      return BadRequest(InvalidPetId);
    }
    var key := Canon(petId);
    if key !in db.pets {
      return NotFound(PetNotFound);
    }
    var deleted := db.pets[key];
    db.pets := db.pets - {key};
    r := Ok(Deleted(deleted.id));
  }
}
