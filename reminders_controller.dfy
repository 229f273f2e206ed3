/** The reminder request handlers: list (optionally for one pet), get, create
    (which checks that the referenced pet exists), partial update and delete
    over the `reminders` collection. */
module RemindersController {
  import opened JsValues
  import opened ObjectIds
  import opened Responses
  import opened Listing
  import opened ReminderModel
  import opened Store
  // The pet handlers' "Invalid petId" reply is sent here as well.
  import PetsController

  const PetDoesNotExist := "Invalid petId (pet does not exist)"
  const InvalidReminderId := "Invalid reminderId"
  const ReminderNotFound := "Reminder not found"
  const FieldsRequired := "Fields 'petId', 'title', and 'dueAt' are required"
  const InvalidDueAt := "'dueAt' must be a valid date"

  /** The keys updateReminder lets a body change; `petId` is not among them. */
  const ReminderUpdateKeys: set<string> := {"title", "dueAt", "frequency", "completed"}

  /** The sort key of `sort({ dueAt: 1 })`. */
  function DueAt(r: Reminder): int
  {
    r.dueAt
  }

  /** `req.params.petId || req.query.petId`: the nested route's parameter when
      it is non-empty, else the query string's. */
  function RequestedPetId(routePetId: Option<string>, queryPetId: Option<string>): (r: Option<string>)
    ensures routePetId.Some? && routePetId.value != "" ==> r == routePetId
    ensures (routePetId.None? || routePetId.value == "") ==> r == queryPetId
  {
    if routePetId.Some? && routePetId.value != "" then routePetId else queryPetId
  }

  /** The reminders whose `petId` is `petId`: the `{ petId }` filter. */
  function RemindersOf(reminders: map<string, Reminder>, petId: string): (m: map<string, Reminder>)
    ensures forall k :: k in m <==> k in reminders && reminders[k].petId == petId
    ensures forall k :: k in m ==> m[k] == reminders[k]
  {
    map k | k in reminders && reminders[k].petId == petId :: reminders[k]
  }

  /** Ordered by due date, earliest first: `sort({ dueAt: 1 })`. */
  predicate EarliestFirst(r: seq<Reminder>)
  {
    forall i, j :: 0 <= i < j < |r| ==> r[i].dueAt <= r[j].dueAt
  }

  /** The reminders of `m` sorted by due date, earliest first; each appears
      once when the table is valid. */
  ghost function ByDueDate(m: map<string, Reminder>): (r: seq<Reminder>)
    ensures EarliestFirst(r)
    ensures |r| == |m|
    ensures forall x :: x in r <==> x in m.Values
    ensures ReminderTableValid(m) ==> forall x :: multiset(r)[x] <= 1
  {
    SortedByDueDate(m);
    SortedValues(m, DueAt)
  }

  lemma SortedByDueDate(m: map<string, Reminder>)
    ensures var r := SortedValues(m, DueAt);
      && EarliestFirst(r)
      && (ReminderTableValid(m) ==> forall x :: multiset(r)[x] <= 1)
  {
    DueAtAscending(SortedValues(m, DueAt));
    if ReminderTableValid(m) {
      DistinctIdsInjective(m);
    }
  }

  lemma DueAtAscending(r: seq<Reminder>)
    requires Ascending(r, DueAt)
    ensures EarliestFirst(r)
  {
    forall i, j | 0 <= i < j < |r| ensures r[i].dueAt <= r[j].dueAt {
      assert DueAt(r[i]) <= DueAt(r[j]);
    }
  }

  /** In a valid table each reminder carries its own key as id, so no two keys
      hold the same reminder. */
  lemma DistinctIdsInjective(m: map<string, Reminder>)
    requires ReminderTableValid(m)
    ensures Injective(m)
  {
    forall a, b | a in m && b in m && a != b ensures m[a] != m[b] {
      assert m[a].id == a && m[b].id == b;
    }
  }

  lemma RemindersOfValues(reminders: map<string, Reminder>, petId: string)
    ensures ReminderTableValid(reminders) ==> ReminderTableValid(RemindersOf(reminders, petId))
    ensures forall x :: x in RemindersOf(reminders, petId).Values <==> x in reminders.Values && x.petId == petId
  {
    var matching := RemindersOf(reminders, petId);
    forall x ensures x in matching.Values <==> x in reminders.Values && x.petId == petId {
      if x in reminders.Values && x.petId == petId {
        var k :| k in reminders && reminders[k] == x;
        assert k in matching;
      }
    }
  }

  /** listReminders: with a truthy pet id (route parameter first, then query),
      a malformed one is a 400 and a well-formed one selects exactly that pet's
      reminders; without one, every reminder. Either way sorted by due date,
      earliest first. */
  ghost function ListReminders(reminders: map<string, Reminder>,
                               routePetId: Option<string>, queryPetId: Option<string>)
    : (r: Outcome<seq<Reminder>>)
    ensures var p := RequestedPetId(routePetId, queryPetId);
      && (r.BadRequest? <==> p.Some? && p.value != "" && !ValidId(p.value))
      && (r.BadRequest? ==> r.msg == PetsController.InvalidPetId)
      && (!r.BadRequest? ==> r.Ok?)
      && (r.Ok? ==> EarliestFirst(r.value))
      && (r.Ok? && (p.None? || p.value == "") ==>
            |r.value| == |reminders| && forall x :: x in r.value <==> x in reminders.Values)
      && (r.Ok? && p.Some? && p.value != "" ==>
            forall x :: x in r.value <==> x in reminders.Values && x.petId == Canon(p.value))
      && (r.Ok? && ReminderTableValid(reminders) ==> forall x :: multiset(r.value)[x] <= 1)
  {
    var petId := RequestedPetId(routePetId, queryPetId);
    if petId.Some? && petId.value != "" then
      if !ValidId(petId.value) then BadRequest(PetsController.InvalidPetId)
      else
        RemindersOfValues(reminders, Canon(petId.value));
        Ok(ByDueDate(RemindersOf(reminders, Canon(petId.value))))
    else
      Ok(ByDueDate(reminders))
  }

  /** getReminder: 400 for a malformed id, 404 when no reminder has it, else that reminder. */
  function GetReminder(reminders: map<string, Reminder>, reminderId: string): (r: Outcome<Reminder>)
    requires ReminderTableValid(reminders)
    ensures !ValidId(reminderId) ==> r == BadRequest(InvalidReminderId)
    ensures ValidId(reminderId) && Canon(reminderId) !in reminders ==> r == NotFound(ReminderNotFound)
    ensures r.Ok? <==> ValidId(reminderId) && Canon(reminderId) in reminders
    ensures r.Ok? ==> r.value in reminders.Values && r.value.id == Canon(reminderId) && ValidReminder(r.value)
  {
    if !ValidId(reminderId) then BadRequest(InvalidReminderId)
    else if Canon(reminderId) !in reminders then NotFound(ReminderNotFound)
    else Ok(reminders[Canon(reminderId)])
  }

  /** `mongoose.Types.ObjectId.isValid` on a body field. */
  predicate IsIdValue(v: Value)
  {
    v.Str? && ValidId(v.s)
  }

  /** `frequency || 'once'`. */
  function FrequencyOrDefault(frequency: Option<Value>): (v: Value)
    ensures !Truthy(frequency) ==> v == Str(FrequencyName(DefaultFrequency))
    ensures Truthy(frequency) ==> v == frequency.value
  {
    if Truthy(frequency) then frequency.value else Str(FrequencyName(DefaultFrequency))
  }

  /** createReminder. Checks run in the source's order, each failure a 400
      that stores nothing: `petId`, `title` and `dueAt` present and truthy;
      `petId` well-formed; a pet with that id stored now; `dueAt` parses.
      Then the schema (500). On success the new reminder, under the fresh id
      `newId`, holds the pet's id, the title, the parsed due date and the
      frequency (`once` when absent or falsy), and is not completed. The pets
      are not changed. */
  method CreateReminder(db: Db, body: Body, parseDate: Value -> Option<Date>, newId: string, now: Date)
    returns (r: Outcome<Reminder>)
    requires db.Valid() && IsCanonical(newId) && newId !in db.reminders
    modifies db
    ensures db.Valid() && db.pets == old(db.pets)
    ensures !r.Created? ==> db.reminders == old(db.reminders)
    ensures r.Created? ==> db.reminders == old(db.reminders)[newId := r.value]
    ensures !r.Created? ==> r.BadRequest? || r == ServerError
    ensures !Truthy(Field(body, "petId")) || !Truthy(Field(body, "title")) || !Truthy(Field(body, "dueAt"))
            ==> r == BadRequest(FieldsRequired)
    ensures Truthy(Field(body, "petId")) && Truthy(Field(body, "title")) && Truthy(Field(body, "dueAt"))
            ==> var petId := body["petId"];
                if !IsIdValue(petId) then r == BadRequest(PetsController.InvalidPetId)
                else if Canon(petId.s) !in old(db.pets) then r == BadRequest(PetDoesNotExist)
                else if parseDate(body["dueAt"]).None? then r == BadRequest(InvalidDueAt)
                else if CastRequiredText(body["title"]).Some?
                        && CastFrequency(FrequencyOrDefault(Field(body, "frequency"))).Some?
                then r.Created?
                else r == ServerError
    ensures r.BadRequest? ==> r.msg in {FieldsRequired, PetsController.InvalidPetId, PetDoesNotExist, InvalidDueAt}
    ensures r.Created? ==>
              && r.value.id == newId && r.value.createdAt == now && r.value.updatedAt == now
              && r.value.petId in old(db.pets) && r.value.petId == Canon(body["petId"].s)
              && Some(r.value.title) == CastRequiredText(body["title"])
              && Some(r.value.dueAt) == parseDate(body["dueAt"])
              && Some(r.value.frequency) == CastFrequency(FrequencyOrDefault(Field(body, "frequency")))
              && r.value.completed == DefaultCompleted
  {
    var petId, title := Field(body, "petId"), Field(body, "title");
    var dueAt, frequency := Field(body, "dueAt"), Field(body, "frequency");
    if !Truthy(petId) || !Truthy(title) || !Truthy(dueAt) {
      return BadRequest(FieldsRequired);
    }
    if !IsIdValue(petId.value) {
      return BadRequest(PetsController.InvalidPetId);
    }
    var pid := Canon(petId.value.s);
    if pid !in db.pets {
      return BadRequest(PetDoesNotExist);
    }
    var due := parseDate(dueAt.value);
    if due.None? {
      return BadRequest(InvalidDueAt);
    }
    CanonIsCanonical(petId.value.s);
    var reminder := NewReminder(newId, pid, title.value, due.value, FrequencyOrDefault(frequency), now);
    if reminder.None? {
      return ServerError;
    }
    ReminderTableStore(db.reminders, reminder.value);
    db.reminders := db.reminders[newId := reminder.value];
    r := Created(reminder.value);
  }

  /** The updates the whitelist collects from the keys of `body` in `seen`: an
      allowed key is copied, except that `dueAt` is kept only when it parses;
      every other key, `petId` among them, is dropped. */
  function ReminderUpdatesFrom(body: Body, parseDate: Value -> Option<Date>, seen: set<string>): ReminderUpdates
  {
    ReminderUpdates(
      title := if "title" in seen && "title" in body then Some(body["title"]) else None,
      dueAt := if "dueAt" in seen && "dueAt" in body then parseDate(body["dueAt"]) else None,
      frequency := if "frequency" in seen && "frequency" in body then Some(body["frequency"]) else None,
      completed := if "completed" in seen && "completed" in body then Some(body["completed"]) else None)
  }

  /** The updates updateReminder collects from the whole body. */
  function WhitelistReminderUpdates(body: Body, parseDate: Value -> Option<Date>): ReminderUpdates
  {
    ReminderUpdatesFrom(body, parseDate, body.Keys)
  }

  /** The `forEach` over `Object.keys(req.body)` that fills `updates`. */
  method CollectReminderUpdates(body: Body, parseDate: Value -> Option<Date>) returns (u: ReminderUpdates)
    ensures u == WhitelistReminderUpdates(body, parseDate)
  {
    u := NoReminderUpdates;
    var keys := body.Keys;
    while keys != {}
      invariant keys <= body.Keys
      invariant u == ReminderUpdatesFrom(body, parseDate, body.Keys - keys)
      decreases keys
    {
      var k :| k in keys;
      if k in ReminderUpdateKeys {
        if k == "dueAt" {
          var d := parseDate(body[k]);
          if d.Some? {
            u := u.(dueAt := d);
          }
        } else if k == "title" {
          u := u.(title := Some(body[k]));
        } else if k == "frequency" {
          u := u.(frequency := Some(body[k]));
        } else {
          u := u.(completed := Some(body[k]));
        }
      }
      keys := keys - {k};
    }
  }

  /** A key outside the whitelist, `petId` included, has no effect on the updates. */
  lemma UnknownReminderKeyIgnored(body: Body, parseDate: Value -> Option<Date>, k: string, v: Value)
    requires k !in ReminderUpdateKeys
    ensures WhitelistReminderUpdates(body[k := v], parseDate) == WhitelistReminderUpdates(body, parseDate)
  {
  }

  /** An unparseable `dueAt` is skipped on its own: the updates are those of the
      body without it, so a `title` in the same body still applies. */
  lemma UnparseableDueAtSkipped(body: Body, parseDate: Value -> Option<Date>)
    requires "dueAt" in body && parseDate(body["dueAt"]).None?
    ensures WhitelistReminderUpdates(body, parseDate) == WhitelistReminderUpdates(body - {"dueAt"}, parseDate)
    ensures WhitelistReminderUpdates(body, parseDate).dueAt.None?
  {
  }

  /** updateReminder. A malformed id is a 400 before anything else; then the
      whitelisted updates are validated (500 when `title` would be emptied,
      `frequency` leaves the enum or `completed` is not a Boolean); then a
      missing reminder is a 404. On success exactly that reminder is replaced
      by its updated form, with the same `petId`. */
  method UpdateReminder(db: Db, reminderId: string, body: Body, parseDate: Value -> Option<Date>, now: Date)
    returns (r: Outcome<Reminder>)
    requires db.Valid()
    modifies db
    ensures db.Valid() && db.pets == old(db.pets)
    ensures !r.Ok? ==> db.reminders == old(db.reminders)
    ensures r.Ok? ==> db.reminders == old(db.reminders)[r.value.id := r.value]
    ensures r.Ok? ==> r.value.id in old(db.reminders) && r.value.petId == old(db.reminders)[r.value.id].petId
    ensures !ValidId(reminderId) ==> r == BadRequest(InvalidReminderId)
    ensures ValidId(reminderId) ==>
              var u := WhitelistReminderUpdates(body, parseDate);
              if !ReminderUpdatesConform(u) then r == ServerError
              else if Canon(reminderId) !in old(db.reminders) then r == NotFound(ReminderNotFound)
              else r == Ok(ApplyReminderUpdates(old(db.reminders)[Canon(reminderId)], u, now))
  {
    if !ValidId(reminderId) {
      return BadRequest(InvalidReminderId);
    }
    var updates := CollectReminderUpdates(body, parseDate);
    if !ReminderUpdatesConform(updates) {
      return ServerError;
    }
    var key := Canon(reminderId);
    if key !in db.reminders {
      return NotFound(ReminderNotFound);
    }
    var reminder := ApplyReminderUpdates(db.reminders[key], updates, now);
    ReminderTableStore(db.reminders, reminder);
    db.reminders := db.reminders[key := reminder];
    r := Ok(reminder);
  }

  /** deleteReminder: 400 for a malformed id, 404 when no reminder has it;
      otherwise that reminder, and only it, is removed. Pets are never touched. */
  method DeleteReminder(db: Db, reminderId: string) returns (r: Outcome<Deleted>)
    requires db.Valid()
    modifies db
    ensures db.Valid() && db.pets == old(db.pets)
    ensures !ValidId(reminderId) ==> r == BadRequest(InvalidReminderId)
    ensures ValidId(reminderId) && Canon(reminderId) !in old(db.reminders) ==> r == NotFound(ReminderNotFound)
    ensures r.Ok? <==> ValidId(reminderId) && Canon(reminderId) in old(db.reminders)
    ensures r.Ok? ==> r.value == Deleted(Canon(reminderId))
    ensures r.Ok? ==> db.reminders == old(db.reminders) - {Canon(reminderId)}
    ensures !r.Ok? ==> db.reminders == old(db.reminders)
  {
    if !ValidId(reminderId) {
      return BadRequest(InvalidReminderId);
    }
    var key := Canon(reminderId);
    if key !in db.reminders {
      return NotFound(ReminderNotFound);
    }
    var removed := db.reminders[key];
    db.reminders := db.reminders - {key};
    r := Ok(Deleted(removed.id));
  }
}
