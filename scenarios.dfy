/** Request sequences run against the handlers' contracts alone: what a client
    of the API can rely on. */
module Scenarios {
  import opened JsValues
  import opened ObjectIds
  import opened Responses
  import opened PetModel
  import opened ReminderModel
  import opened Store
  import PetsController
  import RemindersController

  const FidoId := "aaaaaaaaaaaaaaaaaaaaaaaa"
  const VetId := "bbbbbbbbbbbbbbbbbbbbbbbb"
  const VetDue := Str("2030-01-01T00:00:00Z")

  lemma FixtureIdsCanonical()
    ensures IsCanonical(FidoId) && IsCanonical(VetId)
    ensures Canon(FidoId) == FidoId && Canon(VetId) == VetId
  {
    assert forall i :: 0 <= i < |FidoId| ==> FidoId[i] == 'a';
    assert forall i :: 0 <= i < |VetId| ==> VetId[i] == 'b';
    CanonFixesCanonical(FidoId);
    CanonFixesCanonical(VetId);
  }

  lemma FidoTexts()
    ensures CastRequiredText(Str("Fido")) == Some("Fido")
    ensures CastRequiredText(Str("Dog")) == Some("Dog")
  {
    assert IsRequiredText("Fido") && IsRequiredText("Dog");
  }

  /** A fresh database holding only the pet Fido, created through the handler. */
  method DbWithFido(parseDate: Value -> Option<Date>) returns (db: Db)
    ensures fresh(db) && db.Valid()
    ensures db.pets.Keys == {FidoId} && db.reminders == map[]
  {
    FixtureIdsCanonical();
    FidoTexts();
    db := new Db();
    var body := map["name" := Str("Fido"), "type" := Str("Dog")];
    assert Truthy(Field(body, "name")) && Truthy(Field(body, "type")) && !NotNullish(Field(body, "birthDate"));
    assert CastRequiredText(body["name"]).Some? && CastRequiredText(body["type"]).Some?;
    var pet := PetsController.CreatePet(db, body, parseDate, FidoId, 1);
    assert pet.Created?;
  }

  /** The body of the request that creates the reminder "Vet" for Fido. */
  const VetBody: Body := map["petId" := Str(FidoId), "title" := Str("Vet"), "dueAt" := VetDue]

  /** VetBody passes every check of createReminder while Fido is stored. */
  lemma VetBodyAccepted(parseDate: Value -> Option<Date>)
    requires parseDate(VetDue).Some?
    ensures Truthy(Field(VetBody, "petId")) && Truthy(Field(VetBody, "title")) && Truthy(Field(VetBody, "dueAt"))
    ensures RemindersController.IsIdValue(VetBody["petId"]) && Canon(VetBody["petId"].s) == FidoId
    ensures parseDate(VetBody["dueAt"]).Some? && CastRequiredText(VetBody["title"]) == Some("Vet")
    ensures CastFrequency(RemindersController.FrequencyOrDefault(Field(VetBody, "frequency"))) == Some(Once)
  {
    FixtureIdsCanonical();
    VetTitle();
    assert VetBody["petId"] == Str(FidoId) && VetBody["title"] == Str("Vet") && VetBody["dueAt"] == VetDue;
    assert "frequency" !in VetBody;
  }

  lemma VetTitle()
    ensures CastRequiredText(Str("Vet")) == Some("Vet")
  {
    assert IsRequiredText("Vet");
  }

  /** Fido's database after the reminder "Vet" for it is created through the handler. */
  method AddVetReminder(db: Db, parseDate: Value -> Option<Date>) returns (vet: Reminder)
    requires db.Valid() && db.pets.Keys == {FidoId} && db.reminders == map[]
    requires parseDate(VetDue).Some?
    modifies db
    ensures db.Valid() && db.pets == old(db.pets) && db.reminders == map[VetId := vet]
    ensures vet.petId == FidoId && vet.title == "Vet"
    ensures vet.frequency == Once && !vet.completed
  {
    FixtureIdsCanonical();
    VetBodyAccepted(parseDate);
    var reminder := RemindersController.CreateReminder(db, VetBody, parseDate, VetId, 2);
    assert reminder.Created?;
    vet := reminder.value;
  }

  /** Create the pet Fido, create a reminder "Vet" for it, delete Fido: the
      delete succeeds and leaves no pet, yet the reminder can still be fetched
      (no cascade), with frequency `once` and not completed by default. */
  method ReminderOutlivesItsPet(parseDate: Value -> Option<Date>)
    returns (deleted: Outcome<Deleted>, petsLeft: nat, got: Outcome<Reminder>)
    requires parseDate(VetDue).Some?
    ensures deleted == Ok(Deleted(FidoId)) && deleted.Status() == 200
    ensures petsLeft == 0
    ensures got.Ok? && got.Status() == 200
    ensures got.value.petId == FidoId && got.value.title == "Vet"
    ensures got.value.frequency == Once && !got.value.completed
  {
    FixtureIdsCanonical();
    var db := DbWithFido(parseDate);
    var vet := AddVetReminder(db, parseDate);
    deleted := PetsController.DeletePet(db, FidoId);
    petsLeft := |db.pets|;
    assert db.reminders == map[VetId := vet];
    got := RemindersController.GetReminder(db.reminders, VetId);
  }

  /** Once Fido is deleted, a reminder that names it is refused with a 400 and
      nothing is stored, whatever the date parser makes of its due date: the
      pet check runs before the date is parsed. */
  method ReminderForDeletedPetRefused(parseDate: Value -> Option<Date>) returns (got: Outcome<Reminder>, count: nat)
    ensures got == BadRequest(RemindersController.PetDoesNotExist) && got.Status() == 400
    ensures count == 0
  {
    FixtureIdsCanonical();
    var db := DbWithFido(parseDate);
    var deleted := PetsController.DeletePet(db, FidoId);
    assert db.pets == map[];
    var body := map["petId" := Str(FidoId), "title" := Str("Vet"), "dueAt" := VetDue];
    assert Truthy(Field(body, "petId")) && Truthy(Field(body, "title")) && Truthy(Field(body, "dueAt"));
    assert RemindersController.IsIdValue(body["petId"]) && Canon(FidoId) !in db.pets;
    got := RemindersController.CreateReminder(db, body, parseDate, VetId, 2);
    count := |db.reminders|;
  }
}
