/**
 * The gateway's records as the management routes read and write them.
 *
 * A route takes a patch: a field left out stays as it is, a null one is cleared.
 */
module Gateway {
  import opened Options
  import opened KeyProvider

  datatype Field<+T> = Omitted | Null | Value(v: T)

  /** The limit fields of a /key/generate or /key/update body. */
  datatype KeyFields = KeyFields(
    models: Field<seq<string>>, tpm: Field<int>, rpm: Field<int>, owner: Field<string>,
    maxBudget: Field<real>, budgetDuration: Field<string>, budgetLimits: Field<seq<QuotaWindow>>)

  /** The fields of a /user/new or /user/update body. */
  datatype UserFields = UserFields(
    alias: Field<string>, email: Field<string>, maxBudget: Field<real>, budgetDuration: Field<string>)

  /** A key as the gateway keeps it, with the spend counters of its windows. */
  datatype Key = Key(
    alias: string, models: seq<string>, tpm: Option<int>, rpm: Option<int>, owner: string,
    maxBudget: Option<real>, budgetDuration: Option<string>, budgetLimits: seq<QuotaWindow>,
    spend: real, usage: map<string, real>)

  /** An internal user, who can hold one window. */
  datatype User = User(
    alias: string, email: string, maxBudget: Option<real>, budgetDuration: Option<string>, spend: real)

  datatype State = State(keys: map<Ref, Key>, users: map<string, User>)

  function Patch<T>(was: Option<T>, f: Field<T>): Option<T> {
    match f
    case Omitted => was
    case Null => None
    case Value(v) => Some(v)
  }

  function PatchPlain<T>(was: T, f: Field<T>, cleared: T): T {
    match f
    case Omitted => was
    case Null => cleared
    case Value(v) => v
  }

  function PatchKey(k: Key, f: KeyFields): Key {
    k.(models := PatchPlain(k.models, f.models, []),
       tpm := Patch(k.tpm, f.tpm),
       rpm := Patch(k.rpm, f.rpm),
       owner := PatchPlain(k.owner, f.owner, ""),
       maxBudget := Patch(k.maxBudget, f.maxBudget),
       budgetDuration := Patch(k.budgetDuration, f.budgetDuration),
       budgetLimits := PatchPlain(k.budgetLimits, f.budgetLimits, []))
  }

  function PatchUser(u: User, f: UserFields): User {
    u.(alias := PatchPlain(u.alias, f.alias, ""),
       email := PatchPlain(u.email, f.email, ""),
       maxBudget := Patch(u.maxBudget, f.maxBudget),
       budgetDuration := Patch(u.budgetDuration, f.budgetDuration))
  }

  function BlankKey(alias: string): Key {
    Key(alias, [], None, None, "", None, None, [], 0.0, map[])
  }

  const BLANK_USER := User("", "", None, None, 0.0)

  datatype Status = OK | BadRequest | NotFound | Conflict

  /** The management routes, each one atomic. */
  class Server {
    var keys: map<Ref, Key>
    var users: map<string, User>
    /** When each key expires. */
    var expiry: map<Ref, int>

    function Records(): State
      reads this
    {
      State(keys, users)
    }

    constructor (st: State)
      ensures Records() == st && expiry == map[]
    {
      keys, users, expiry := st.keys, st.users, map[];
    }

    /** Refuses a user that exists, and an address somebody else holds. */
    method UserNew(id: string, f: UserFields) returns (status: Status)
      modifies this`users
      ensures status == OK ==> id !in old(users) && users == old(users)[id := PatchUser(BLANK_USER, f)]
      ensures status != OK ==> status == Conflict && users == old(users)
      ensures status == Conflict <==>
              id in old(users) || (f.email.Value? && exists o :: o in old(users) && old(users)[o].email == f.email.v)
    {
      if id in users || (f.email.Value? && exists o :: o in users && users[o].email == f.email.v) {
        return Conflict;
      }
      users := users[id := PatchUser(BLANK_USER, f)];
      return OK;
    }

    /** Creates the user it does not find. */
    method UserUpdate(id: string, f: UserFields) returns (status: Status)
      modifies this`users
      ensures status == OK
      ensures users == old(users)[id := PatchUser(if id in old(users) then old(users)[id] else BLANK_USER, f)]
    {
      users := users[id := PatchUser(if id in users then users[id] else BLANK_USER, f)];
      return OK;
    }

    /** An alias is unique across live keys; the gateway chooses a ref it has never used. */
    method KeyGenerate(alias: string, f: KeyFields, ref: Ref, expiresAt: int) returns (status: Status)
      requires ref !in keys
      modifies this`keys, this`expiry
      ensures status == BadRequest <==> exists r :: r in old(keys) && old(keys)[r].alias == alias
      ensures status == BadRequest ==> keys == old(keys) && expiry == old(expiry)
      ensures status != BadRequest ==>
                status == OK && keys == old(keys)[ref := PatchKey(BlankKey(alias), f)] && expiry == old(expiry)[ref := expiresAt]
    {
      if exists r :: r in keys && keys[r].alias == alias {
        return BadRequest;
      }
      keys := keys[ref := PatchKey(BlankKey(alias), f)];
      expiry := expiry[ref := expiresAt];
      return OK;
    }

    /** Rejects a null model list; answers not found for a key it does not have. */
    method KeyUpdate(ref: Ref, f: KeyFields) returns (status: Status)
      modifies this`keys
      ensures status == BadRequest <==> f.models.Null?
      ensures status == NotFound <==> !f.models.Null? && ref !in old(keys)
      ensures status == OK ==> ref in old(keys) && keys == old(keys)[ref := PatchKey(old(keys)[ref], f)]
      ensures status != OK ==> status in {BadRequest, NotFound} && keys == old(keys)
    {
      if f.models.Null? {
        return BadRequest;
      }
      if ref !in keys {
        return NotFound;
      }
      keys := keys[ref := PatchKey(keys[ref], f)];
      return OK;
    }

    method KeyExtend(ref: Ref, until: int) returns (status: Status)
      modifies this`expiry
      ensures status == if ref in keys then OK else NotFound
      ensures expiry == if ref in keys then old(expiry)[ref := until] else old(expiry)
    {
      if ref !in keys {
        return NotFound;
      }
      expiry := expiry[ref := until];
      return OK;
    }

    method KeyDelete(ref: Ref) returns (status: Status)
      modifies this`keys
      ensures keys == old(keys) - {ref}
      ensures status == if ref in old(keys) then OK else NotFound
    {
      if ref !in keys {
        return NotFound;
      }
      keys := keys - {ref};
      return OK;
    }
  }
}
