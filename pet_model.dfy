/** The Pet schema: the shape of a stored pet and what the schema (required
    and trimmed String paths, an optional Date, timestamps) guarantees of it. */
module PetModel {
  import opened JsValues

  /** A stored pet document. `kind` holds the schema's `type` path. */
  datatype Pet = Pet(
    id: string,
    name: string,
    kind: string,
    breed: Option<string>,
    birthDate: Option<Date>,
    createdAt: Date,
    updatedAt: Date)

  /** What the schema enforces of every stored pet: `name` and `type` are
      required and trimmed, `breed` is trimmed when set. */
  predicate ValidPet(p: Pet)
  {
    && IsRequiredText(p.name)
    && IsRequiredText(p.kind)
    && (p.breed.Some? ==> IsTrimmed(p.breed.value))
  }

  /** `Pet.create(toSave)`: the schema casts and trims `name`, `type` and
      `breed`, fails when a required path is left empty, and stamps both
      timestamps with `now`. */
  function NewPet(id: string, name: Value, kind: Value, breed: Option<Value>,
                  birthDate: Option<Date>, now: Date): (r: Option<Pet>)
    requires breed.Some? ==> !breed.value.Null?
    ensures r.Some? <==> CastRequiredText(name).Some? && CastRequiredText(kind).Some?
    ensures r.Some? ==> ValidPet(r.value)
    ensures r.Some? ==> r.value.id == id && r.value.birthDate == birthDate
    ensures r.Some? ==> r.value.createdAt == now && r.value.updatedAt == now
    ensures r.Some? ==> (r.value.breed.Some? <==> breed.Some?)
    ensures r.Some? ==> Some(r.value.name) == CastRequiredText(name)
    ensures r.Some? ==> Some(r.value.kind) == CastRequiredText(kind)
    ensures r.Some? && breed.Some? ==> r.value.breed == CastOptionalText(breed.value)
    ensures r.Some? && name.Str? ==> r.value.name == Trim(name.s)
    ensures r.Some? && kind.Str? ==> r.value.kind == Trim(kind.s)
    ensures r.Some? && breed.Some? && breed.value.Str? ==> r.value.breed == Some(Trim(breed.value.s))
  {
    match (CastRequiredText(name), CastRequiredText(kind))
    case (Some(n), Some(k)) =>
      var b := if breed.Some? then CastOptionalText(breed.value) else None;
      Some(Pet(id, n, k, b, birthDate, now, now))
    case _ => None
  }

  /** The `updates` object updatePet hands to `findByIdAndUpdate`: one slot per
      allowed key, `None` where the body did not set it. */
  datatype PetUpdates = PetUpdates(
    name: Option<Value>,
    kind: Option<Value>,
    breed: Option<Value>,
    birthDate: Option<Date>)

  const NoPetUpdates := PetUpdates(None, None, None, None)

  /** Whether the update validators accept `u`: a required path may not be set
      to null or to text that trims to nothing. */
  predicate PetUpdatesConform(u: PetUpdates)
  {
    && (u.name.Some? ==> CastRequiredText(u.name.value).Some?)
    && (u.kind.Some? ==> CastRequiredText(u.kind.value).Some?)
  }

  /** The stored pet after `$set` of the conforming updates `u` at time `now`. */
  function ApplyPetUpdates(p: Pet, u: PetUpdates, now: Date): (q: Pet)
    requires PetUpdatesConform(u)
    ensures ValidPet(p) ==> ValidPet(q)
    ensures q.id == p.id && q.createdAt == p.createdAt && q.updatedAt == now
    ensures u.name.None? ==> q.name == p.name
    ensures u.kind.None? ==> q.kind == p.kind
    ensures u.breed.None? ==> q.breed == p.breed
    ensures u.birthDate.None? ==> q.birthDate == p.birthDate
    ensures u.name.Some? ==> Some(q.name) == CastRequiredText(u.name.value)
    ensures u.kind.Some? ==> Some(q.kind) == CastRequiredText(u.kind.value)
    ensures u.breed.Some? ==> q.breed == CastOptionalText(u.breed.value)
    ensures u.name.Some? && u.name.value.Str? ==> q.name == Trim(u.name.value.s)
    ensures u.kind.Some? && u.kind.value.Str? ==> q.kind == Trim(u.kind.value.s)
    ensures u.breed.Some? ==> (q.breed.None? <==> u.breed.value.Null?)
    ensures u.breed.Some? && u.breed.value.Str? ==> q.breed == Some(Trim(u.breed.value.s))
    ensures u.birthDate.Some? ==> q.birthDate == u.birthDate
  {
    p.(
      name := if u.name.Some? then CastRequiredText(u.name.value).value else p.name,
      kind := if u.kind.Some? then CastRequiredText(u.kind.value).value else p.kind,
      breed := if u.breed.Some? then CastOptionalText(u.breed.value) else p.breed,
      birthDate := if u.birthDate.Some? then u.birthDate else p.birthDate,
      updatedAt := now)
  }
}
