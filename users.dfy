/** The `users` table of server/controllers/userController.js.  The schema
    gives `theme_preference` and `onboarding_completed` their default values;
    the schema file is not part of this model, so they are parameters of the
    table. */
module Users {
  import opened Base
  import Table

  datatype User = User(
    username: string,
    email: string,
    theme_preference: Option<string>,
    onboarding_completed: Option<bool>,
    created_at: nat)

  /** The body of the 201 answer. */
  datatype UserCreated = UserCreated(id: nat, username: string, email: string)

  /** The listing has no WHERE clause. */
  function Everyone(u: User): bool {
    true
  }

  /** The ORDER BY key. */
  function CreatedAt(u: User): nat {
    u.created_at
  }

  /** `SELECT * FROM users ORDER BY created_at DESC`: every user, newest first. */
  function AllUsers(rows: map<nat, User>): (r: seq<(nat, User)>)
    ensures forall p :: p in r ==> p.0 in rows && rows[p.0] == p.1
    ensures forall id :: id in rows ==> (id, rows[id]) in r
    ensures forall i, j :: 0 <= i < j < |r| ==> r[i].0 != r[j].0 && r[i].1.created_at >= r[j].1.created_at
  {
    Table.Select(rows, Everyone, CreatedAt)
  }

  class UserTable {
    var rows: map<nat, User>
    var nextId: nat
    var clock: nat
    /** Column defaults of the schema. */
    const defaultTheme: Option<string>
    const defaultOnboarding: Option<bool>

    ghost predicate Valid()
      reads this
    {
      1 <= nextId &&
      forall id :: id in rows ==> 1 <= id < nextId && rows[id].created_at <= clock
    }

    constructor (defaultTheme: Option<string>, defaultOnboarding: Option<bool>)
      ensures Valid() && rows == map[] && nextId == 1 && clock == 0
      ensures this.defaultTheme == defaultTheme && this.defaultOnboarding == defaultOnboarding
    {
      rows, nextId, clock := map[], 1, 0;
      this.defaultTheme, this.defaultOnboarding := defaultTheme, defaultOnboarding;
    }

    /** createUser: INSERT username and email under a fresh id. */
    method CreateUser(username: string, email: string, elapsed: nat) returns (r: UserCreated)
      requires Valid()
      modifies this
      ensures Valid()
      ensures r.id !in old(rows) && r.id == old(nextId) && clock == old(clock) + elapsed
      ensures rows == old(rows)[r.id := User(username, email, defaultTheme, defaultOnboarding, clock)]
      ensures r == UserCreated(r.id, username, email)
    {
      clock := clock + elapsed;
      var id := nextId;
      rows := rows[id := User(username, email, defaultTheme, defaultOnboarding, clock)];
      nextId := nextId + 1;
      r := UserCreated(id, username, email);
    }

    /** updateUser: overwrite the four mutable columns of one row. */
    method UpdateUser(id: nat, username: string, email: string,
                      theme_preference: Option<string>, onboarding_completed: Option<bool>)
      returns (o: Outcome)
      requires Valid()
      modifies this`rows
      ensures Valid()
      ensures o == NotFound <==> id !in old(rows)
      ensures rows == if id in old(rows)
        then old(rows)[id := User(username, email, theme_preference, onboarding_completed, old(rows)[id].created_at)]
        else old(rows)
    {
      if id in rows {
        rows := rows[id := User(username, email, theme_preference, onboarding_completed, rows[id].created_at)];
        o := Ok;
      } else {
        o := NotFound;
      }
    }

    /** deleteUser: remove exactly that row. */
    method DeleteUser(id: nat) returns (o: Outcome)
      requires Valid()
      modifies this`rows
      ensures Valid()
      ensures o == NotFound <==> id !in old(rows)
      ensures rows == old(rows) - {id}
      ensures Table.Find(rows, id) == None
    {
      o := if id in rows then Ok else NotFound;
      rows := rows - {id};
    }
  }
}
