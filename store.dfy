/**
 * The database the API routes work on: the user table and the time-log
 * table, each held as a sequence of rows in insertion order.
 */
module Store {
  import opened Types

  /** The foreign key of the time-log table: every log's `userId` is the id
      of a stored user. */
  predicate LogsOwned(users: seq<User>, logs: seq<TimeLog>) {
    forall l :: l in logs ==> exists u :: u in users && u.id == l.userId
  }

  class Database {
    var users: seq<User>
    var logs: seq<TimeLog>

    /** The constraints of the tables: the user table's primary key and
        unique email, and the time-log table's required relation to its user. */
    ghost predicate Valid()
      reads this
    {
      UniqueIds(users) && UniqueEmails(users) && LogsOwned(users, logs)
    }

    constructor (users0: seq<User>, logs0: seq<TimeLog>)
      requires UniqueIds(users0) && UniqueEmails(users0) && LogsOwned(users0, logs0)
      ensures Valid()
      ensures users == users0 && logs == logs0
    {
      users := users0;
      logs := logs0;
    }
  }
}
