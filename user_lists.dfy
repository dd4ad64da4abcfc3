/**
 * The list helpers of the user-group model: users, the diff between two member lists
 * (`diffUserList`), and the splitting of a list into chunks of bounded size (`chunkify`).
 */
module UserLists {
  import opened Wrappers

  /** A Twitter user as the server projects it from an API reply. */
  datatype TwitterUser = TwitterUser(userId: int, screenName: string, name: string)

  /** What `diffUserList` returns: both inputs and the users to remove and to add. */
  datatype UserListDiff = UserListDiff(
    oldUsers: seq<TwitterUser>,
    newUsers: seq<TwitterUser>,
    removedUsers: seq<TwitterUser>,
    addedUsers: seq<TwitterUser>)

  /** The set of screen names of a list of users (`new Set(users.map(u => u.screenName))`). */
  function ScreenNames(users: seq<TwitterUser>): (names: set<string>)
    ensures forall u :: u in users ==> u.screenName in names
    ensures forall n :: n in names ==> exists u :: u in users && u.screenName == n
  {
    if users == [] then {} else {users[0].screenName} + ScreenNames(users[1..])
  }

  /** The screen names of a list of users, in order (what a request carries). */
  function ScreenNameList(users: seq<TwitterUser>): (names: seq<string>)
    ensures |names| == |users|
    ensures forall i :: 0 <= i < |users| ==> names[i] == users[i].screenName
  {
    if users == [] then [] else [users[0].screenName] + ScreenNameList(users[1..])
  }

  /** `users.filter(u => !names.has(u.screenName))` */
  function Without(users: seq<TwitterUser>, names: set<string>): (r: seq<TwitterUser>)
    ensures |r| <= |users|
    ensures forall u :: u in r <==> u in users && u.screenName !in names
  {
    if users == [] then []
    else if users[0].screenName in names then Without(users[1..], names)
    else [users[0]] + Without(users[1..], names)
  }

  /**
   * `diffUserList(oldUsers, newUsers)`: a user is removed when no new user has its screen
   * name and added when no old user has its screen name.
   */
  function DiffUserList(oldUsers: seq<TwitterUser>, newUsers: seq<TwitterUser>): (d: UserListDiff)
    ensures d.oldUsers == oldUsers && d.newUsers == newUsers
    ensures forall u :: u in d.removedUsers <==> u in oldUsers && u.screenName !in ScreenNames(newUsers)
    ensures forall u :: u in d.addedUsers <==> u in newUsers && u.screenName !in ScreenNames(oldUsers)
  {
    UserListDiff(oldUsers, newUsers,
      Without(oldUsers, ScreenNames(newUsers)),
      Without(newUsers, ScreenNames(oldUsers)))
  }

  /** Filtering keeps the input order: it distributes over concatenation. */
  lemma {:induction false} WithoutConcat(a: seq<TwitterUser>, b: seq<TwitterUser>, names: set<string>)
    ensures Without(a + b, names) == Without(a, names) + Without(b, names)
  {
    if a == [] {
      assert a + b == b;
    } else {
      assert (a + b)[1..] == a[1..] + b;
      WithoutConcat(a[1..], b, names);
    }
  }

  /** Filtering by a set that no user's name is in changes nothing. */
  lemma {:induction false} WithoutNothing(users: seq<TwitterUser>, names: set<string>)
    requires forall u :: u in users ==> u.screenName !in names
    ensures Without(users, names) == users
  {
    if users != [] {
      assert users[0] in users;
      forall u | u in users[1..] ensures u.screenName !in names {
        assert u in users;
      }
      WithoutNothing(users[1..], names);
    }
  }

  /** The names that survive the filter are exactly the names not filtered out. */
  lemma {:induction false} ScreenNamesWithout(users: seq<TwitterUser>, names: set<string>)
    ensures ScreenNames(Without(users, names)) == ScreenNames(users) - names
  {
    if users != [] {
      ScreenNamesWithout(users[1..], names);
      if users[0].screenName !in names {
        assert Without(users, names) == [users[0]] + Without(users[1..], names);
        assert Without(users, names)[1..] == Without(users[1..], names);
      }
    }
  }

  /** Filtering by a set holding every user's name leaves nobody. */
  lemma {:induction false} WithoutAll(users: seq<TwitterUser>, names: set<string>)
    requires forall u :: u in users ==> u.screenName in names
    ensures Without(users, names) == []
  {
    if users != [] {
      assert users[0] in users;
      forall u | u in users[1..] ensures u.screenName in names {
        assert u in users;
      }
      WithoutAll(users[1..], names);
    }
  }

  /** Diffing a list against itself removes and adds nobody. */
  lemma DiffSelf(users: seq<TwitterUser>)
    ensures DiffUserList(users, users).removedUsers == []
    ensures DiffUserList(users, users).addedUsers == []
  {
    WithoutAll(users, ScreenNames(users));
  }

  /** The diff is antisymmetric: swapping the lists swaps the removed and the added users. */
  lemma DiffSwap(a: seq<TwitterUser>, b: seq<TwitterUser>)
    ensures DiffUserList(b, a).removedUsers == DiffUserList(a, b).addedUsers
    ensures DiffUserList(b, a).addedUsers == DiffUserList(a, b).removedUsers
  {
  }

  /**
   * Applying the diff to the old names yields the new names: take away the removed users'
   * names and add the added users' names.
   */
  lemma DiffConverges(oldUsers: seq<TwitterUser>, newUsers: seq<TwitterUser>)
    ensures var d := DiffUserList(oldUsers, newUsers);
      (ScreenNames(oldUsers) - ScreenNames(d.removedUsers)) + ScreenNames(d.addedUsers) == ScreenNames(newUsers)
  {
    ScreenNamesWithout(oldUsers, ScreenNames(newUsers));
    ScreenNamesWithout(newUsers, ScreenNames(oldUsers));
  }

  /** The removed and the added users never share a screen name. */
  lemma DiffDisjoint(oldUsers: seq<TwitterUser>, newUsers: seq<TwitterUser>)
    ensures var d := DiffUserList(oldUsers, newUsers);
      ScreenNames(d.removedUsers) !! ScreenNames(d.addedUsers)
  {
    ScreenNamesWithout(oldUsers, ScreenNames(newUsers));
    ScreenNamesWithout(newUsers, ScreenNames(oldUsers));
  }

  /**
   * Users are matched by screen name, not by id: a user who changed their screen name
   * shows up both as removed (old name) and as added (new name).
   */
  lemma DiffRenamedUser(oldUsers: seq<TwitterUser>, newUsers: seq<TwitterUser>, before: TwitterUser, after: TwitterUser)
    requires before in oldUsers && after in newUsers
    requires before.userId == after.userId
    requires before.screenName !in ScreenNames(newUsers) && after.screenName !in ScreenNames(oldUsers)
    ensures before in DiffUserList(oldUsers, newUsers).removedUsers
    ensures after in DiffUserList(oldUsers, newUsers).addedUsers
  {
  }

  // ---------------------------------------------------------------------------------------
  // Chunks

  function Min(a: int, b: int): int { if a <= b then a else b }

  /** The chunks `xs.slice(i, i + limit)` for i = start, start + limit, ... below |xs|. */
  function ChunksFrom<T>(xs: seq<T>, limit: nat, start: nat): seq<seq<T>>
    requires limit > 0
    decreases |xs| - start
  {
    if start >= |xs| then [] else [xs[start..Min(start + limit, |xs|)]] + ChunksFrom(xs, limit, start + limit)
  }

  /** What `chunkify(xs, limit)` returns for a positive limit. */
  function Chunks<T>(xs: seq<T>, limit: nat): (xss: seq<seq<T>>)
    requires limit > 0
    ensures xss == [] <==> xs == []
  {
    ChunksFrom(xs, limit, 0)
  }

  /** The concatenation of a list of lists. */
  function Flatten<T>(xss: seq<seq<T>>): seq<T>
  {
    if xss == [] then [] else xss[0] + Flatten(xss[1..])
  }

  lemma {:induction false} FlattenConcat<T>(a: seq<seq<T>>, b: seq<seq<T>>)
    ensures Flatten(a + b) == Flatten(a) + Flatten(b)
  {
    if a == [] {
      assert a + b == b;
    } else {
      assert (a + b)[1..] == a[1..] + b;
      FlattenConcat(a[1..], b);
    }
  }

  lemma {:induction false} ChunksFromFlatten<T>(xs: seq<T>, limit: nat, start: nat)
    requires limit > 0 && start <= |xs|
    ensures Flatten(ChunksFrom(xs, limit, start)) == xs[start..]
    decreases |xs| - start
  {
    if start < |xs| {
      var end := Min(start + limit, |xs|);
      ChunksFromFlatten(xs, limit, end);
      if end < |xs| {
        assert ChunksFrom(xs, limit, start + limit) == ChunksFrom(xs, limit, end);
      } else {
        assert ChunksFrom(xs, limit, start + limit) == [];
      }
      assert xs[start..] == xs[start..end] + xs[end..];
    }
  }

  /** Concatenating the chunks gives back the input. */
  lemma ChunksFlatten<T>(xs: seq<T>, limit: nat)
    requires limit > 0
    ensures Flatten(Chunks(xs, limit)) == xs
  {
    ChunksFromFlatten(xs, limit, 0);
  }

  lemma {:induction false} ChunksFromCount<T>(xs: seq<T>, limit: nat, start: nat)
    requires limit > 0 && start <= |xs|
    ensures var k := |ChunksFrom(xs, limit, start)|; k * limit - limit < |xs| - start <= k * limit
    decreases |xs| - start
  {
    if start < |xs| {
      var k := |ChunksFrom(xs, limit, start + limit)|;
      assert |ChunksFrom(xs, limit, start)| == k + 1;
      assert (k + 1) * limit == k * limit + limit;
      if start + limit < |xs| {
        ChunksFromCount(xs, limit, start + limit);
      } else {
        assert ChunksFrom(xs, limit, start + limit) == [];
      }
    }
  }

  lemma {:induction false} ChunksFromSizes<T>(xs: seq<T>, limit: nat, start: nat)
    requires limit > 0 && start <= |xs|
    ensures forall i :: 0 <= i < |ChunksFrom(xs, limit, start)| ==> 0 < |ChunksFrom(xs, limit, start)[i]| <= limit
    ensures forall i :: 0 <= i < |ChunksFrom(xs, limit, start)| - 1 ==> |ChunksFrom(xs, limit, start)[i]| == limit
    decreases |xs| - start
  {
    if start < |xs| {
      var chunk := xs[start..Min(start + limit, |xs|)];
      var rest := ChunksFrom(xs, limit, start + limit);
      var xss := ChunksFrom(xs, limit, start);
      assert xss == [chunk] + rest;
      if start + limit < |xs| {
        ChunksFromSizes(xs, limit, start + limit);
        assert forall i :: 1 <= i < |xss| ==> xss[i] == rest[i - 1];
      } else {
        assert rest == [];
      }
    }
  }

  /**
   * `chunkify` splits into ceil(|xs| / limit) (the least count whose chunks can hold
   * every item) non-empty chunks of at most `limit` items,
   * all but the last of exactly `limit` items.
   */
  lemma ChunksShape<T>(xs: seq<T>, limit: nat)
    requires limit > 0
    ensures var xss := Chunks(xs, limit);
      |xss| * limit - limit < |xs| <= |xss| * limit &&
      (forall i :: 0 <= i < |xss| ==> 0 < |xss[i]| <= limit) &&
      (forall i :: 0 <= i < |xss| - 1 ==> |xss[i]| == limit)
  {
    ChunksFromCount(xs, limit, 0);
    ChunksFromSizes(xs, limit, 0);
  }

  /**
   * `chunkify(xs, limit)`: the loop of slices `xs.slice(i, i + limit)` for i stepping by
   * `limit`, which throws when a slice is empty (only possible with a zero limit).
   */
  method Chunkify<T>(xs: seq<T>, limit: nat) returns (r: Result<seq<seq<T>>, string>)
    ensures limit > 0 ==> r == Ok(Chunks(xs, limit))
    ensures limit == 0 ==> r == (if xs == [] then Ok([]) else Err("Should be nonempty."))
  {
    var xss: seq<seq<T>> := [];
    var i := 0;
    while i < |xs|
      invariant limit == 0 ==> i == 0 && xss == []
      invariant limit > 0 ==> xss + ChunksFrom(xs, limit, i) == ChunksFrom(xs, limit, 0)
      decreases |xs| - i
    {
      var chunk := xs[i..Min(i + limit, |xs|)];
      if |chunk| == 0 {
        return Err("Should be nonempty.");
      }
      xss := xss + [chunk];
      i := i + limit;
    }
    if limit > 0 {
      assert ChunksFrom(xs, limit, i) == [];
      assert xss + ChunksFrom(xs, limit, i) == xss;
    }
    return Ok(xss);
  }
}
