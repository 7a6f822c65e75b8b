/**
 * The in-memory repositories: messages kept in a list in arrival order, and
 * users kept in a dictionary under their `id`.
 */
module RepositoryImpl {
  import opened Wrappers

  /** `MessageRepositoryImpl`: `self.messages`, a list appended to. */
  class MessageRepositoryImpl<M> {
    var messages: seq<M>

    constructor()
      ensures messages == []
    {
      messages := [];
    }

    /** `save_message(message)`: appended at the end; earlier messages are left as they were. */
    method SaveMessage(message: M)
      modifies this
      ensures messages == old(messages) + [message]
      ensures messages[..|old(messages)|] == old(messages) && messages[|messages| - 1] == message
    {
      messages := messages + [message];
    }

    /** `get_messages()`: every saved message, oldest first. */
    method GetMessages() returns (r: seq<M>)
      ensures r == messages
    {
      r := messages;
    }
  }

  /** `UserRepositoryImpl`: `self.users`, a dict keyed by `user.id`; `idOf` reads that attribute. */
  class UserRepositoryImpl<K(==), U> {
    const idOf: U -> K
    var users: map<K, U>

    constructor(idOf: U -> K)
      ensures this.idOf == idOf && users == map[]
    {
      this.idOf := idOf;
      users := map[];
    }

    /** `save_user(user)`: stored under its id, replacing any earlier user with that id; other ids are untouched. */
    method SaveUser(user: U)
      modifies this
      ensures users == old(users)[idOf(user) := user]
      ensures idOf(user) in users && users[idOf(user)] == user
      ensures forall k | k in old(users) && k != idOf(user) :: k in users && users[k] == old(users)[k]
      ensures users.Keys == old(users).Keys + {idOf(user)}
    {
      users := users[idOf(user) := user];
    }

    /** `get_user(user_id)`: `self.users.get(user_id)`, the last user saved under that id or None. */
    method GetUser(userId: K) returns (r: Option<U>)
      ensures r.Some? <==> userId in users
      ensures r.Some? ==> r.value == users[userId]
    {
      r := if userId in users then Some(users[userId]) else None;
    }
  }

  /** A message saved after a list of others comes back last, after them, in order. */
  method SaveThenGet<M>(repo: MessageRepositoryImpl<M>, first: M, second: M) returns (r: seq<M>)
    modifies repo
    ensures r == old(repo.messages) + [first, second]
  {
    repo.SaveMessage(first);
    repo.SaveMessage(second);
    r := repo.GetMessages();
  }

  /** After saving two users with the same id, lookup returns the second. */
  method SaveTwiceThenGet<K(==), U>(repo: UserRepositoryImpl<K, U>, a: U, b: U) returns (r: Option<U>)
    requires repo.idOf(a) == repo.idOf(b)
    modifies repo
    ensures r == Some(b)
  {
    repo.SaveUser(a);
    repo.SaveUser(b);
    r := repo.GetUser(repo.idOf(a));
  }
}
