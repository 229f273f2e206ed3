/** The document store: the `pets` and `reminders` collections, each a table
    from stored id to document, updated in place by the request handlers. */
module Store {
  import opened ObjectIds
  import opened PetModel
  import opened ReminderModel

  /** Every key is a stored-form id, every document carries its own key as
      `_id` and satisfies the Pet schema. */
  predicate PetTableValid(pets: map<string, Pet>)
  {
    forall k :: k in pets ==> IsCanonical(k) && pets[k].id == k && ValidPet(pets[k])
  }

  /** As for pets. A reminder's `petId` need not name a stored pet: deleting a
      pet leaves its reminders in place. */
  predicate ReminderTableValid(reminders: map<string, Reminder>)
  {
    forall k :: k in reminders ==> IsCanonical(k) && reminders[k].id == k && ValidReminder(reminders[k])
  }

  /** Storing a schema-valid pet under its own stored-form id keeps the table valid. */
  lemma PetTableStore(pets: map<string, Pet>, p: Pet)
    requires PetTableValid(pets) && IsCanonical(p.id) && ValidPet(p)
    ensures PetTableValid(pets[p.id := p])
  {
  }

  lemma ReminderTableStore(reminders: map<string, Reminder>, r: Reminder)
    requires ReminderTableValid(reminders) && IsCanonical(r.id) && ValidReminder(r)
    ensures ReminderTableValid(reminders[r.id := r])
  {
  }

  class Db {
    var pets: map<string, Pet>
    var reminders: map<string, Reminder>

    ghost predicate Valid()
      reads this
    {
      PetTableValid(pets) && ReminderTableValid(reminders)
    }

    /** A database with both collections empty. */
    constructor ()
      ensures Valid()
      ensures pets == map[] && reminders == map[]
    {
      pets := map[];
      reminders := map[];
    }
  }
}
