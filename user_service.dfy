/**
 * The in-memory user store. It holds the current snapshot of the user list
 * (the value of its behaviour subject) and the counter from which new ids
 * are drawn. Adding appends a record under the next id; updating replaces
 * the non-id fields of the records with a given id. Every call replaces the
 * snapshot as a whole; subscribers are not modelled, only the snapshot.
 *
 * The transitions are first stated on values (StoreState, Add, Update) and
 * then carried out by the class UserService, whose methods are proved to
 * perform exactly those transitions.
 */
module Services {
  import opened Models

  /** The store's observable state: the snapshot and the id counter. */
  datatype StoreState = StoreState(users: seq<User>, idCounter: int)

  /** A fresh store: no users, and the first id handed out is 1. */
  const Initial: StoreState := StoreState([], 1)

  /**
   * The store's invariant: ids in the snapshot are strictly increasing in
   * list order, at least 1, and all below the counter.
   */
  ghost predicate IdsOrdered(s: StoreState)
  {
    1 <= s.idCounter &&
    (forall i, j :: 0 <= i < j < |s.users| ==> s.users[i].id < s.users[j].id) &&
    (forall i :: 0 <= i < |s.users| ==> 1 <= s.users[i].id < s.idCounter)
  }

  // ------------------------------------------------------------------- add

  /** `addUser`: one record appended under the current counter, which then moves on by one. */
  function Add(s: StoreState, f: UserFields): (r: StoreState)
    ensures |r.users| == |s.users| + 1 && r.users[..|s.users|] == s.users
    ensures r.users[|s.users|] == WithId(s.idCounter, f)
    ensures r.idCounter == s.idCounter + 1
  {
    StoreState(s.users + [WithId(s.idCounter, f)], s.idCounter + 1)
  }

  lemma AddKeepsIdsOrdered(s: StoreState, f: UserFields)
    requires IdsOrdered(s)
    ensures IdsOrdered(Add(s, f))
  {
  }

  // ---------------------------------------------------------------- update

  /**
   * The mapping applied to each record by `updateUser`: the id is kept; a
   * record with the given id takes the supplied name, email and role, and
   * any other record is returned as it is.
   */
  function Patch(u: User, id: int, f: UserFields): (r: User)
    ensures r.id == u.id
    ensures u.id == id ==> r.name == f.name && r.email == f.email && r.role == f.role
    ensures u.id != id ==> r == u
  {
    if u.id == id then WithId(u.id, f) else u
  }

  /**
   * The snapshot after `updateUser(id, f)`: the same records in the same
   * order; those whose id is `id` carry the fields of `f` under their own
   * id, and all others are unchanged.
   */
  function Updated(users: seq<User>, id: int, f: UserFields): (r: seq<User>)
    ensures |r| == |users|
    ensures forall i :: 0 <= i < |users| ==> r[i].id == users[i].id
    ensures forall i :: 0 <= i < |users| && users[i].id == id ==>
      r[i].name == f.name && r[i].email == f.email && r[i].role == f.role
    ensures forall i :: 0 <= i < |users| && users[i].id != id ==> r[i] == users[i]
  {
    if users == [] then [] else [Patch(users[0], id, f)] + Updated(users[1..], id, f)
  }

  /** `updateUser`: the snapshot is mapped through Patch; the counter is not touched. */
  function Update(s: StoreState, id: int, f: UserFields): (r: StoreState)
    ensures r.idCounter == s.idCounter && |r.users| == |s.users|
  {
    StoreState(Updated(s.users, id, f), s.idCounter)
  }

  /** Updating an id that no record carries leaves the snapshot as it was. */
  lemma UpdateAbsentIsNoOp(s: StoreState, id: int, f: UserFields)
    requires forall i :: 0 <= i < |s.users| ==> s.users[i].id != id
    ensures Update(s, id, f) == s
  {
    assert Updated(s.users, id, f) == s.users;
  }

  lemma UpdateKeepsIdsOrdered(s: StoreState, id: int, f: UserFields)
    requires IdsOrdered(s)
    ensures IdsOrdered(Update(s, id, f))
  {
  }

  /** Under the invariant, at most one record is touched by an update: ids are pairwise distinct. */
  lemma IdsUnique(s: StoreState, i: int, j: int)
    requires IdsOrdered(s)
    requires 0 <= i < |s.users| && 0 <= j < |s.users| && s.users[i].id == s.users[j].id
    ensures i == j
  {
  }

  // ------------------------------------------------- any sequence of calls

  /** A call a client makes on the store. */
  datatype Call = AddUser(fields: UserFields) | UpdateUser(id: int, fields: UserFields)

  function Step(s: StoreState, c: Call): StoreState
  {
    match c
    case AddUser(f) => Add(s, f)
    case UpdateUser(id, f) => Update(s, id, f)
  }

  /** The store's state after the calls, made in order on a fresh store. */
  function Run(calls: seq<Call>): StoreState
  {
    if calls == [] then Initial else Step(Run(calls[..|calls| - 1]), calls[|calls| - 1])
  }

  function AddCount(calls: seq<Call>): (n: nat)
    ensures n <= |calls|
  {
    if calls == [] then 0
    else AddCount(calls[..|calls| - 1]) + (if calls[|calls| - 1].AddUser? then 1 else 0)
  }

  /**
   * After any sequence of adds and updates the invariant holds; the list
   * grows only by adds; ids are handed out as 1, 2, 3, ... in list order, so
   * none is ever reused; and the counter is one past the number of adds.
   */
  lemma {:induction false} RunShape(calls: seq<Call>)
    ensures IdsOrdered(Run(calls))
    ensures |Run(calls).users| == AddCount(calls)
    ensures Run(calls).idCounter == AddCount(calls) + 1
    ensures forall k :: 0 <= k < |Run(calls).users| ==> Run(calls).users[k].id == k + 1
  {
    if calls != [] {
      var prefix := calls[..|calls| - 1];
      RunShape(prefix);
      match calls[|calls| - 1]
      case AddUser(f) => AddKeepsIdsOrdered(Run(prefix), f);
      case UpdateUser(id, f) => UpdateKeepsIdsOrdered(Run(prefix), id, f);
    }
  }

  // ----------------------------------------------------------- the service

  class UserService {
    /** The value currently held by the behaviour subject: the snapshot. */
    var users: seq<User>
    var idCounter: int

    function State(): StoreState
      reads this
    {
      StoreState(users, idCounter)
    }

    ghost predicate Valid()
      reads this
    {
      IdsOrdered(State())
    }

    constructor ()
      ensures Valid() && State() == Initial
    {
      users := [];
      idCounter := 1;
    }

    /** Takes the counter as the new id, increments it, and broadcasts the extended list. */
    method AddUser(user: UserFields)
      requires Valid()
      modifies this
      ensures Valid() && State() == Add(old(State()), user)
      ensures users == old(users) + [WithId(old(idCounter), user)]
      ensures idCounter == old(idCounter) + 1
    {
      AddKeepsIdsOrdered(State(), user);
      var newUser := WithId(idCounter, user);
      idCounter := idCounter + 1;
      users := users + [newUser];
    }

    /** Broadcasts the list with the fields of every record whose id is `id` replaced. */
    method UpdateUser(id: int, updatedUser: UserFields)
      requires Valid()
      modifies this
      ensures Valid() && State() == Update(old(State()), id, updatedUser)
      ensures users == Updated(old(users), id, updatedUser)
      ensures idCounter == old(idCounter)
    {
      UpdateKeepsIdsOrdered(State(), id, updatedUser);
      users := Updated(users, id, updatedUser);
    }
  }
}
