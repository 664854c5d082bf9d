/**
 * The three Spring Data repositories the services use, as in-memory tables:
 * users by email, roles by name, and each user's password history, newest
 * entry first. `save` on a user row follows JPA: a row without an id is
 * inserted under the next identity value; a row with an id is merged, and only
 * a merge that changes the row is flushed, firing the entity's `@PreUpdate`.
 */
module Stores {
  import opened Wrappers
  import opened Users

  /** The users table: rows by email, and the next identity value. */
  datatype UserTable = UserTable(byEmail: map<string, User>, nextId: int)

  /** Every row is stored under its own email and, having been inserted, has an id. */
  ghost predicate KeyedByEmail(t: UserTable) {
    forall e | e in t.byEmail :: t.byEmail[e].email == e && t.byEmail[e].id.Some?
  }

  /** `findByEmail`. */
  function Lookup(t: UserTable, email: string): Option<User> {
    if email in t.byEmail then Some(t.byEmail[email]) else None
  }

  /** The row a `save` writes. */
  function StoredRow(t: UserTable, u: User, now: int): User {
    if u.id.None? then u.(id := Some(t.nextId))
    else if u.email in t.byEmail && t.byEmail[u.email] == u then u
    else PreUpdate(u, now)
  }

  /**
   * The table after `save(u)` at time `now`: the row is found under its email
   * as stored, every other email finds what it found before, and no row
   * disappears. An insert takes the next identity value and advances it; a
   * merge keeps the row's id and the counter.
   */
  function Saved(t: UserTable, u: User, now: int): (r: UserTable)
    ensures Lookup(r, u.email) == Some(StoredRow(t, u, now))
    ensures forall e :: e != u.email ==> Lookup(r, e) == Lookup(t, e)
    ensures r.byEmail.Keys == t.byEmail.Keys + {u.email}
    ensures u.id.None? ==> Lookup(r, u.email).value.id == Some(t.nextId) && r.nextId == t.nextId + 1
    ensures u.id.Some? ==> Lookup(r, u.email).value.id == u.id && r.nextId == t.nextId
  {
    UserTable(t.byEmail[u.email := StoredRow(t, u, now)], if u.id.None? then t.nextId + 1 else t.nextId)
  }

  /** Saving keeps the table keyed by email and touches no other row. */
  lemma SavedKeepsOtherRows(t: UserTable, u: User, now: int, other: string)
    requires KeyedByEmail(t)
    ensures KeyedByEmail(Saved(t, u, now))
    ensures other != u.email ==> Lookup(Saved(t, u, now), other) == Lookup(t, other)
    ensures Lookup(Saved(t, u, now), u.email) == Some(StoredRow(t, u, now))
  {
  }

  /**
   * A save that changes a persisted row stamps `updatedAt` with the save time;
   * a save that changes nothing leaves the row as it was.
   */
  lemma SavedChangeStampsUpdatedAt(t: UserTable, u: User, now: int)
    requires u.id.Some?
    ensures Lookup(t, u.email) != Some(u) ==> Lookup(Saved(t, u, now), u.email).value.updatedAt == Some(now)
    ensures Lookup(t, u.email) == Some(u) ==> Saved(t, u, now) == t
  {
    if Lookup(t, u.email) == Some(u) {
      assert t.byEmail[u.email := u] == t.byEmail;
    }
  }

  class UserRepository {
    var byEmail: map<string, User>
    var nextId: int

    function Table(): UserTable
      reads this
    {
      UserTable(byEmail, nextId)
    }

    constructor(t: UserTable)
      ensures Table() == t
    {
      byEmail, nextId := t.byEmail, t.nextId;
    }

    function FindByEmail(email: string): Option<User>
      reads this
    {
      Lookup(Table(), email)
    }

    predicate ExistsByEmail(email: string)
      reads this
    {
      email in byEmail
    }

    /** `save` (and `saveAndFlush`): returns the row as stored. */
    method Save(u: User, now: int) returns (saved: User)
      modifies this
      ensures saved == StoredRow(old(Table()), u, now)
      ensures Table() == Saved(old(Table()), u, now)
    {
      saved := StoredRow(Table(), u, now);
      byEmail := byEmail[u.email := saved];
      if u.id.None? {
        nextId := nextId + 1;
      }
    }

    /** The rollback of a transaction that ends in an exception: its writes are discarded. */
    method Rollback(t: UserTable)
      modifies this
      ensures Table() == t
    {
      byEmail, nextId := t.byEmail, t.nextId;
    }
  }

  /** The roles table: rows by name, and the next identity value. */
  datatype RoleTable = RoleTable(byName: map<string, Role>, nextId: int)

  class RoleRepository {
    var byName: map<string, Role>
    var nextId: int

    function Table(): RoleTable
      reads this
    {
      RoleTable(byName, nextId)
    }

    constructor(t: RoleTable)
      ensures Table() == t
    {
      byName, nextId := t.byName, t.nextId;
    }

    function FindByName(name: string): Option<Role>
      reads this
    {
      if name in byName then Some(byName[name]) else None
    }

    /** `save` of a new role: it gets the next identity value. */
    method Save(r: Role) returns (saved: Role)
      modifies this
      ensures saved == r.(id := Some(old(nextId)))
      ensures Table() == RoleTable(old(byName)[r.name := saved], old(nextId) + 1)
    {
      saved := r.(id := Some(nextId));
      byName := byName[r.name := saved];
      nextId := nextId + 1;
    }
  }

  /** One `PasswordHistory` row. */
  datatype HistoryEntry = HistoryEntry(passwordHash: string, ipAddress: string, userAgent: Option<string>, createdAt: int)

  /** Each user's history by user id, newest entry first (`ORDER BY createdAt DESC`). */
  class PasswordHistoryRepository {
    var byUser: map<int, seq<HistoryEntry>>

    constructor(h: map<int, seq<HistoryEntry>>)
      ensures byUser == h
    {
      byUser := h;
    }

    /** `findByUserOrderByCreatedAtDesc` and `findRecentPasswordHistory`. */
    function NewestFirst(userId: int): seq<HistoryEntry>
      reads this
    {
      if userId in byUser then byUser[userId] else []
    }

    /** `save` of a new entry, which is the newest one. */
    method Save(userId: int, e: HistoryEntry)
      modifies this
      ensures byUser == old(byUser)[userId := [e] + old(NewestFirst(userId))]
    {
      byUser := byUser[userId := [e] + NewestFirst(userId)];
    }

    /** `deleteAll(allHistory.subList(keep, allHistory.size()))`. */
    method DeleteAllAfter(userId: int, keep: nat)
      requires keep <= |NewestFirst(userId)|
      modifies this
      ensures byUser == old(byUser)[userId := old(NewestFirst(userId))[..keep]]
    {
      byUser := byUser[userId := NewestFirst(userId)[..keep]];
    }
  }
}
