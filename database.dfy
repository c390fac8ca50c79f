/**
 * The two collections, accounts and appointments, as in-memory tables keyed
 * by id, with the counter that supplies fresh ids, and the facts every
 * stored document satisfies.
 */
module Database {
  import opened Http
  import opened UserModel
  import opened AppointmentModel

  datatype Db = Db(accounts: map<Id, Account>, appointments: map<Id, Appointment>, nextId: nat)

  /** The result of a handler together with the tables it leaves behind. */
  datatype Step<+T> = Step(result: Result<T>, db: Db)

  /** Every id in use is below nextId, emails are unique, and every stored
      document passed its schema's validation. */
  ghost predicate Valid(db: Db)
  {
    && (forall id :: id in db.accounts ==> id < db.nextId)
    && (forall id :: id in db.appointments ==> id < db.nextId)
    && EmailsUnique(db.accounts)
    && (forall id :: id in db.accounts ==> ValidAccount(db.accounts[id]))
    && (forall id :: id in db.appointments ==> ValidAppointment(db.appointments[id]))
  }

  const Empty: Db := Db(map[], map[], 0)

  lemma EmptyValid()
    ensures Valid(Empty)
  {
  }

  /** An id no document of either collection uses. */
  function FreshId(db: Db): (id: Id)
    requires Valid(db)
    ensures id !in db.accounts && id !in db.appointments
  {
    db.nextId
  }
}
