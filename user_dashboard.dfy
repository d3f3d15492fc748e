/**
 * The dashboard's data logic: the table's filter predicate and the
 * normalisation of the filter text, the role histogram behind the pie
 * chart, and the dispatch of a submitted form to the store's add or update.
 */
module Dashboard {
  import opened Wrappers
  import opened Models
  import opened Strings
  import opened Services

  // ------------------------------------------------------------ the filter

  /** The lower-cased `field` holds `v` somewhere. */
  ghost predicate FieldContains(field: string, v: string)
  {
    exists i :: OccursAt(ToLower(field), v, i)
  }

  /**
   * The table's filter predicate. A user passes exactly when the filter,
   * trimmed and lower-cased, occurs in the lower-cased name, email or role.
   */
  function FilterPredicate(data: User, filter: string): (b: bool)
    ensures b <==>
      var v := Normalize(filter);
      FieldContains(data.name, v) || FieldContains(data.email, v) || FieldContains(RoleName(data.role), v)
  {
    var v := Normalize(filter);
    IncludesIff(ToLower(data.name), v);
    IncludesIff(ToLower(data.email), v);
    IncludesIff(ToLower(RoleName(data.role)), v);
    Includes(ToLower(data.name), v) ||
    Includes(ToLower(data.email), v) ||
    Includes(ToLower(RoleName(data.role)), v)
  }

  /** An empty filter, or one made only of whitespace, lets every user through. */
  lemma BlankFilterMatchesAll(data: User, filter: string)
    requires AllSpace(filter)
    ensures FilterPredicate(data, filter)
  {
    TrimBlank(filter);
  }

  /**
   * `applyFilter` stores the normalised text and the predicate normalises it
   * again, to the same effect as normalising once.
   */
  lemma StoredFilterSameEffect(data: User, value: string)
    ensures FilterPredicate(data, Normalize(value)) == FilterPredicate(data, value)
  {
    NormalizeIdempotent(value);
  }

  /** The filter's own case does not matter. */
  lemma FilterIgnoresCase(data: User, filter: string)
    ensures FilterPredicate(data, ToLower(filter)) == FilterPredicate(data, filter)
  {
    NormalizeIgnoresCase(filter);
  }

  // --------------------------------------------------------- the histogram

  /** The number of users in `users` whose role is `r`. */
  function CountRole(users: seq<User>, r: Role): (n: nat)
    ensures n <= |users|
  {
    if users == [] then 0
    else CountRole(users[..|users| - 1], r) + (if users[|users| - 1].role == r then 1 else 0)
  }

  function Roles(users: seq<User>): seq<Role>
  {
    seq(|users|, i requires 0 <= i < |users| => users[i].role)
  }

  /**
   * The chart's dataset: one entry per bucket, in the order Admin, Editor,
   * Viewer, each the number of users with that role; together they count
   * every user once.
   */
  function RoleCounts(users: seq<User>): (r: seq<nat>)
    ensures |r| == 3
    ensures r == [multiset(Roles(users))[Admin], multiset(Roles(users))[Editor], multiset(Roles(users))[Viewer]]
    ensures r[0] + r[1] + r[2] == |users|
  {
    CountRoleIsMultiplicity(users, Admin);
    CountRoleIsMultiplicity(users, Editor);
    CountRoleIsMultiplicity(users, Viewer);
    BucketsSumToTotal(users);
    [CountRole(users, Admin), CountRole(users, Editor), CountRole(users, Viewer)]
  }

  /** Each bucket holds the multiplicity of its role among the users' roles. */
  lemma {:induction false} CountRoleIsMultiplicity(users: seq<User>, r: Role)
    ensures CountRole(users, r) == multiset(Roles(users))[r]
  {
    if users != [] {
      var init := users[..|users| - 1];
      CountRoleIsMultiplicity(init, r);
      assert Roles(users) == Roles(init) + [users[|users| - 1].role];
    }
  }

  /** The three buckets together count every user once. */
  lemma {:induction false} BucketsSumToTotal(users: seq<User>)
    ensures CountRole(users, Admin) + CountRole(users, Editor) + CountRole(users, Viewer) == |users|
  {
    if users != [] {
      BucketsSumToTotal(users[..|users| - 1]);
    }
  }

  /** The `forEach` loop that increments one bucket per user, then reads the buckets out in order. */
  method ComputeChartData(users: seq<User>) returns (chartData: seq<nat>)
    ensures chartData == RoleCounts(users)
    ensures chartData[0] + chartData[1] + chartData[2] == |users|
  {
    var rolesCount: map<Role, nat> := map[Admin := 0, Editor := 0, Viewer := 0];
    assert users[..0] == [];
    for i := 0 to |users|
      invariant rolesCount.Keys == {Admin, Editor, Viewer}
      invariant forall r :: r in rolesCount ==> rolesCount[r] == CountRole(users[..i], r)
    {
      assert users[..i + 1][..i] == users[..i];
      var role := users[i].role;
      assert role == Admin || role == Editor || role == Viewer;
      rolesCount := rolesCount[role := rolesCount[role] + 1];
    }
    assert users[..|users|] == users;
    chartData := [rolesCount[Admin], rolesCount[Editor], rolesCount[Viewer]];
    BucketsSumToTotal(users);
  }

  // ------------------------------------------------------------- scenarios

  const Ann := UserFields("Ann", "a@x.com", Admin)
  const Bo := UserFields("Bo", "b@x.com", Editor)
  const AnnK := UserFields("Ann K.", "a@x.com", Viewer)

  lemma CountsOfTwo(u: User, v: User)
    ensures forall r :: CountRole([u, v], r) == (if u.role == r then 1 else 0) + (if v.role == r then 1 else 0)
  {
    assert [u, v][..1] == [u] && [u][..0] == [];
  }

  /** Two adds on a fresh store give ids 1 and 2 and one Admin and one Editor. */
  lemma ScenarioTwoAdds()
    ensures Run([AddUser(Ann), AddUser(Bo)]).users == [WithId(1, Ann), WithId(2, Bo)]
    ensures RoleCounts(Run([AddUser(Ann), AddUser(Bo)]).users) == [1, 1, 0]
  {
    var c1, c2 := [AddUser(Ann)], [AddUser(Ann), AddUser(Bo)];
    assert Run(c1) == StoreState([WithId(1, Ann)], 2) by {
      assert c1[..0] == [];
    }
    assert Run(c2) == StoreState([WithId(1, Ann), WithId(2, Bo)], 3) by {
      assert c2[..1] == c1;
    }
    CountsOfTwo(WithId(1, Ann), WithId(2, Bo));
  }

  /**
   * Then updating user 1 to a Viewer changes only that record, moves one
   * count from Admin to Viewer, and leaves the counter at 3.
   */
  lemma ScenarioUpdate()
    ensures Run([AddUser(Ann), AddUser(Bo), UpdateUser(1, AnnK)]) == StoreState([WithId(1, AnnK), WithId(2, Bo)], 3)
    ensures RoleCounts(Run([AddUser(Ann), AddUser(Bo), UpdateUser(1, AnnK)]).users) == [0, 1, 1]
  {
    var c := [AddUser(Ann), AddUser(Bo), UpdateUser(1, AnnK)];
    assert c[..2] == [AddUser(Ann), AddUser(Bo)];
    ScenarioTwoAdds();
    RunShape([AddUser(Ann), AddUser(Bo)]);
    CountsOfTwo(WithId(1, AnnK), WithId(2, Bo));
  }

  lemma NormalizeEdit()
    ensures Normalize("edit") == "edit"
  {
    assert TrimStart("edit") == "edit";
    assert TrimEnd("edit") == "edit";
  }

  /** The filter "edit" matches Bo through the role "Editor". */
  lemma ScenarioFilterMatches()
    ensures FilterPredicate(WithId(2, Bo), "edit")
  {
    NormalizeEdit();
    assert ToLower("Editor") == "editor";
    assert "editor"[..4] == "edit";
  }

  lemma NoEditWithoutD(s: string)
    requires 'd' !in s && 'D' !in s
    ensures !Includes(ToLower(s), "edit")
  {
    if Includes(ToLower(s), "edit") {
      assert "edit"[1] == 'd';
      IncludesChars(ToLower(s), "edit", 1);
    }
  }

  /** The filter "edit" does not match the updated Ann in any field. */
  lemma ScenarioFilterRejects()
    ensures !FilterPredicate(WithId(1, AnnK), "edit")
  {
    NormalizeEdit();
    NoEditWithoutD("Ann K.");
    NoEditWithoutD("a@x.com");
    NoEditWithoutD("Viewer");
  }

  // ---------------------------------------------------------- the component

  class UserDashboard {
    const userService: UserService
    /** The table data source's rows. */
    var data: seq<User>
    /** The table data source's filter, as stored by `applyFilter`. */
    var filter: string
    /** The pie chart's dataset; None while no chart has been drawn. */
    var chart: Option<seq<nat>>

    ghost predicate Valid()
      reads this, userService
    {
      userService.Valid() && data == userService.users
    }

    /** Construction and `ngOnInit`: subscribing replays the store's current snapshot at once. */
    constructor (service: UserService)
      requires service.Valid()
      ensures userService == service && Valid()
      ensures filter == []
      ensures chart == if service.users == [] then None else Some(RoleCounts(service.users))
    {
      userService := service;
      data := [];
      filter := [];
      chart := None;
      new;
      OnUsers(service.users);
    }

    /** What the component does with every snapshot the store broadcasts. */
    method OnUsers(users: seq<User>)
      modifies this
      ensures data == users && filter == old(filter)
      ensures chart == if users == [] then old(chart) else Some(RoleCounts(users))
    {
      data := users;
      RenderChart(users);
    }

    /** Nothing happens for an empty list; otherwise the chart shows the role counts. */
    method RenderChart(users: seq<User>)
      modifies this`chart
      ensures chart == if users == [] then old(chart) else Some(RoleCounts(users))
    {
      if |users| == 0 {
        return;
      }
      var chartData := ComputeChartData(users);
      chart := Some(chartData);
    }

    /** Stores the input's value trimmed and lower-cased as the table's filter. */
    method ApplyFilter(value: string)
      modifies this`filter
      ensures filter == Normalize(value)
    {
      filter := Normalize(value);
    }

    /**
     * The form's emission: an update of the edited user's id when the form
     * was opened on a user, an add otherwise; exactly one store call, whose
     * broadcast the component then receives.
     */
    method OnFormResult(user: Option<User>, userData: UserFields)
      requires Valid()
      modifies this, userService
      ensures Valid() && filter == old(filter)
      ensures userService.State() ==
        if user.Some? then Update(old(userService.State()), user.value.id, userData)
        else Add(old(userService.State()), userData)
      ensures chart == if userService.users == [] then old(chart) else Some(RoleCounts(userService.users))
    {
      if user.Some? {
        userService.UpdateUser(user.value.id, userData);
      } else {
        userService.AddUser(userData);
      }
      OnUsers(userService.users);
    }
  }
}
