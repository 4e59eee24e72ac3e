/**
 * The application-user list (`useUsers`): the client-side search and sort over
 * the loaded list, the local list updates after an update or a delete, the
 * lookup `toggleBlacklist` does before it asks the server, and the role colour
 * and icon helpers.
 *
 * Server calls are parameters: each method is handed the outcome of its request.
 * The notifications and the shared error handler are not modelled; a failure's
 * text is the message it carries. The `clearError()` the requests call first is
 * the shared handler's, so a success leaves the composable's own `error` as it was;
 * only the exported `clearUserError` resets it.
 */
module UsersComposable {
  import opened Base
  import opened Types

  // ---------------------------------------------------------------------------
  // Search

  /** The field test of `searchUsers` for an already lower-cased term. */
  predicate FieldMatches(u: User, field: string, lowerTerm: string)
  {
    if field == "name" then Contains(Lower(u.name), lowerTerm)
    else if field == "email" then Contains(Lower(u.email), lowerTerm)
    else if field == "id" then Contains(IntToString(u.id), lowerTerm)
    else Contains(Lower(u.name), lowerTerm) || Contains(Lower(u.email), lowerTerm)
         || Contains(IntToString(u.id), lowerTerm)
  }

  /** `users.filter(...)`: the users the test keeps, in their original order. */
  function FilterUsers(users: seq<User>, field: string, lowerTerm: string): (r: seq<User>)
    ensures |r| <= |users|
    ensures forall u :: u in r <==> u in users && FieldMatches(u, field, lowerTerm)
  {
    if users == [] then []
    else
      (if FieldMatches(users[0], field, lowerTerm) then [users[0]] else [])
      + FilterUsers(users[1..], field, lowerTerm)
  }

  /**
   * `searchUsers(term, field)`: the whole list for a blank term, otherwise the
   * users whose chosen field contains the lower-cased term.
   */
  function SearchUsers(users: seq<User>, term: string, field: string): (r: seq<User>)
    ensures Trim(term) == "" ==> r == users
    ensures Trim(term) != "" ==> forall u :: u in r <==> u in users && FieldMatches(u, field, Lower(term))
  {
    if Trim(term) == "" then users else FilterUsers(users, field, Lower(term))
  }

  /** A field other than name, email or id searches all three. */
  lemma UnknownFieldSearchesAll(u: User, field: string, lowerTerm: string)
    requires field != "name" && field != "email" && field != "id"
    ensures FieldMatches(u, field, lowerTerm) <==>
              FieldMatches(u, "name", lowerTerm) || FieldMatches(u, "email", lowerTerm) || FieldMatches(u, "id", lowerTerm)
  {
  }

  /** Filtering keeps the relative order: the result is a subsequence of the list. */
  predicate Subsequence(a: seq<User>, b: seq<User>)
    decreases |b|
  {
    if a == [] then true
    else if b == [] then false
    else if a[0] == b[0] then Subsequence(a[1..], b[1..])
    else Subsequence(a, b[1..])
  }

  lemma {:induction false} FilterKeepsOrder(users: seq<User>, field: string, lowerTerm: string)
    ensures Subsequence(FilterUsers(users, field, lowerTerm), users)
  {
    if users != [] {
      FilterKeepsOrder(users[1..], field, lowerTerm);
      var rest := FilterUsers(users[1..], field, lowerTerm);
      if FieldMatches(users[0], field, lowerTerm) {
        assert ([users[0]] + rest)[1..] == rest;
      } else {
        assert [] + rest == rest;
        SubsequenceSkip(rest, users);
      }
    }
  }

  lemma {:induction false} SubsequenceSkip(a: seq<User>, b: seq<User>)
    requires b != [] && Subsequence(a, b[1..])
    ensures Subsequence(a, b)
    decreases |b|, |a|
  {
    if a != [] && a[0] == b[0] {
      // Matching the head instead of skipping it needs the rest to fit in b[1..].
      SubsequenceTail(a, b[1..]);
    }
  }

  /** Dropping the head of a subsequence keeps it a subsequence. */
  lemma {:induction false} SubsequenceTail(a: seq<User>, b: seq<User>)
    requires a != [] && Subsequence(a, b)
    ensures Subsequence(a[1..], b)
    decreases |b|, |a|
  {
    if b != [] {
      if a[0] == b[0] {
        if a[1..] != [] {
          SubsequenceTail(a[1..], b[1..]);
          SubsequenceSkip(a[1..], b);
        }
      } else {
        SubsequenceTail(a, b[1..]);
        if a[1..] != [] {
          SubsequenceSkip(a[1..], b);
        }
      }
    }
  }

  lemma LowerCharIdempotent(c: char)
    ensures LowerChar(LowerChar(c)) == LowerChar(c)
    ensures IsSpace(LowerChar(c)) <==> IsSpace(c)
  {
  }

  /**
   * The search is case-insensitive in the term: searching for the lower-cased
   * term gives the same users.
   */
  lemma SearchIgnoresTermCase(users: seq<User>, term: string, field: string)
    ensures SearchUsers(users, Lower(term), field) == SearchUsers(users, term, field)
  {
    var low := Lower(term);
    forall i | 0 <= i < |term|
      ensures low[i] == LowerChar(term[i]) && LowerChar(low[i]) == low[i]
      ensures IsSpace(low[i]) <==> IsSpace(term[i])
    {
      LowerCharIdempotent(term[i]);
    }
    assert Lower(low) == low;
    TrimEmpty(term);
    TrimEmpty(low);
  }

  // ---------------------------------------------------------------------------
  // Sort

  /** The value `a[field]` that the sort compares, lower-cased when it is a string. */
  datatype SortKey = KStr(s: string) | KNum(n: int) | KMissing

  function KeyOf(u: User, field: string): SortKey
  {
    if field == "id" then KNum(u.id)
    else if field == "email" then KStr(Lower(u.email))
    else if field == "name" then KStr(Lower(u.name))
    else if field == "role" then KStr(Lower(u.role))
    else if field == "created_at" then KStr(Lower(u.createdAt))
    else if field == "updated_at" then KStr(Lower(u.updatedAt))
    else if field == "blacklisted" then KNum(if u.blacklisted then 1 else 0)
    else KMissing
  }

  /** JavaScript's `<` on two keys of the same field; `undefined` is never smaller. */
  predicate KeyLess(a: SortKey, b: SortKey)
  {
    match (a, b)
    case (KStr(x), KStr(y)) => LexLess(x, y)
    case (KNum(x), KNum(y)) => x < y
    case _ => false
  }

  lemma KeyLessAsymmetric(a: SortKey, b: SortKey)
    requires KeyLess(a, b)
    ensures !KeyLess(b, a)
  {
    if a.KStr? {
      LexLessAsymmetric(a.s, b.s);
    }
  }

  /** The comparator returns a negative number: `a` goes before `b` in the requested order. */
  predicate Before(a: User, b: User, field: string, ascending: bool)
  {
    if ascending then KeyLess(KeyOf(a, field), KeyOf(b, field)) else KeyLess(KeyOf(b, field), KeyOf(a, field))
  }

  /** No user is followed by one the comparator puts before it. */
  predicate SortedBy(s: seq<User>, field: string, ascending: bool)
  {
    forall i :: 0 <= i < |s| - 1 ==> !Before(s[i + 1], s[i], field, ascending)
  }

  /** `x` placed before the first user it does not follow, as a stable sort places it. */
  function Insert(x: User, s: seq<User>, field: string, ascending: bool): (r: seq<User>)
    ensures |r| == |s| + 1
    ensures multiset(r) == multiset(s) + multiset{x}
    ensures r[0] == x || (s != [] && r[0] == s[0])
  {
    if s == [] || !Before(s[0], x, field, ascending) then [x] + s
    else
      assert s == [s[0]] + s[1..];
      [s[0]] + Insert(x, s[1..], field, ascending)
  }

  lemma {:induction false} InsertSorted(x: User, s: seq<User>, field: string, ascending: bool)
    requires SortedBy(s, field, ascending)
    ensures SortedBy(Insert(x, s, field, ascending), field, ascending)
  {
    if s != [] && Before(s[0], x, field, ascending) {
      InsertSorted(x, s[1..], field, ascending);
      var rest := Insert(x, s[1..], field, ascending);
      var r := [s[0]] + rest;
      if rest[0] == x {
        if ascending {
          KeyLessAsymmetric(KeyOf(s[0], field), KeyOf(x, field));
        } else {
          KeyLessAsymmetric(KeyOf(x, field), KeyOf(s[0], field));
        }
      }
      forall i | 0 <= i < |r| - 1
        ensures !Before(r[i + 1], r[i], field, ascending)
      {
        if i > 0 {
          assert r[i] == rest[i - 1] && r[i + 1] == rest[i];
        }
      }
    }
  }

  /** The sort itself: each user inserted into the sorted rest. */
  function SortBy(s: seq<User>, field: string, ascending: bool): (r: seq<User>)
    ensures |r| == |s| && multiset(r) == multiset(s)
  {
    if s == [] then []
    else
      assert s == [s[0]] + s[1..];
      Insert(s[0], SortBy(s[1..], field, ascending), field, ascending)
  }

  lemma {:induction false} SortBySorted(s: seq<User>, field: string, ascending: bool)
    ensures SortedBy(SortBy(s, field, ascending), field, ascending)
  {
    if s != [] {
      SortBySorted(s[1..], field, ascending);
      InsertSorted(s[0], SortBy(s[1..], field, ascending), field, ascending);
    }
  }

  /** The users whose sort key is `k`, in their order. */
  function WithKey(s: seq<User>, field: string, k: SortKey): (r: seq<User>)
    ensures |r| <= |s|
  {
    if s == [] then [] else (if KeyOf(s[0], field) == k then [s[0]] else []) + WithKey(s[1..], field, k)
  }

  lemma KeyLessIrreflexive(a: SortKey)
    ensures !KeyLess(a, a)
  {
    if a.KStr? {
      LexLessIrreflexive(a.s);
    }
  }

  lemma WithKeyCons(u: User, s: seq<User>, field: string, k: SortKey)
    ensures WithKey([u] + s, field, k) == (if KeyOf(u, field) == k then [u] else []) + WithKey(s, field, k)
  {
    assert ([u] + s)[0] == u && ([u] + s)[1..] == s;
  }

  /** Two users with different keys commute under `WithKey`: at most one of them is kept. */
  lemma WithKeySwap(x: User, y: User, rest: seq<User>, field: string, k: SortKey)
    requires KeyOf(x, field) != KeyOf(y, field)
    ensures (if KeyOf(y, field) == k then [y] else []) + ((if KeyOf(x, field) == k then [x] else []) + rest) ==
            (if KeyOf(x, field) == k then [x] else []) + ((if KeyOf(y, field) == k then [y] else []) + rest)
  {
  }

  /** Inserting `x` puts it ahead of every user that shares its key. */
  lemma {:induction false} InsertWithKey(x: User, s: seq<User>, field: string, ascending: bool, k: SortKey)
    ensures WithKey(Insert(x, s, field, ascending), field, k) ==
            (if KeyOf(x, field) == k then [x] else []) + WithKey(s, field, k)
  {
    if s == [] || !Before(s[0], x, field, ascending) {
      WithKeyCons(x, s, field, k);
    } else {
      KeyLessIrreflexive(KeyOf(x, field));
      var rest := Insert(x, s[1..], field, ascending);
      assert Insert(x, s, field, ascending) == [s[0]] + rest;
      WithKeyCons(s[0], rest, field, k);
      InsertWithKey(x, s[1..], field, ascending, k);
      WithKeyCons(s[0], s[1..], field, k);
      assert [s[0]] + s[1..] == s;
      WithKeySwap(x, s[0], WithKey(s[1..], field, k), field, k);
    }
  }

  /** The sort is stable: the users sharing any one key keep their relative order. */
  lemma {:induction false} SortByStable(s: seq<User>, field: string, ascending: bool, k: SortKey)
    ensures WithKey(SortBy(s, field, ascending), field, k) == WithKey(s, field, k)
  {
    if s != [] {
      SortByStable(s[1..], field, ascending, k);
      InsertWithKey(s[0], SortBy(s[1..], field, ascending), field, ascending, k);
    }
  }

  /**
   * `sortUsers(field, order)`: a sorted copy of the list, 'asc' ascending and
   * anything else descending, holding the same users.
   */
  function SortUsers(users: seq<User>, field: string, order: string): (r: seq<User>)
    ensures multiset(r) == multiset(users)
    ensures SortedBy(r, field, order == "asc")
  {
    SortBySorted(users, field, order == "asc");
    SortBy(users, field, order == "asc")
  }

  /** The fields of the record that the sort can compare. */
  predicate SortField(field: string)
  {
    field == "id" || field == "email" || field == "name" || field == "role"
    || field == "created_at" || field == "updated_at" || field == "blacklisted"
  }

  lemma KeyOfUnknown(u: User, field: string)
    requires !SortField(field)
    ensures KeyOf(u, field) == KMissing
  {
  }

  /** A field the record does not have compares every pair equal, so the order is kept. */
  lemma {:induction false} UnknownSortFieldKeepsOrder(users: seq<User>, field: string, ascending: bool)
    requires !SortField(field)
    ensures SortBy(users, field, ascending) == users
  {
    if users != [] {
      UnknownSortFieldKeepsOrder(users[1..], field, ascending);
      var rest := SortBy(users[1..], field, ascending);
      KeyOfUnknown(users[0], field);
      if rest != [] {
        KeyOfUnknown(rest[0], field);
        assert !Before(rest[0], users[0], field, ascending);
      }
      assert Insert(users[0], rest, field, ascending) == [users[0]] + rest;
      assert [users[0]] + users[1..] == users;
    }
  }

  // ---------------------------------------------------------------------------
  // Local list updates

  /** `users.findIndex(u => u.id === id)`: the first index with that id, or -1. */
  function FindIndex(users: seq<User>, id: int): (r: int)
    ensures -1 <= r < |users|
    ensures r == -1 <==> forall u :: u in users ==> u.id != id
    ensures r != -1 ==> users[r].id == id && forall j :: 0 <= j < r ==> users[j].id != id
  {
    if users == [] then -1
    else if users[0].id == id then 0
    else
      var k := FindIndex(users[1..], id);
      if k == -1 then -1 else k + 1
  }

  /** `users.filter(u => u.id !== id)` */
  function RemoveId(users: seq<User>, id: int): (r: seq<User>)
    ensures |r| <= |users|
    ensures forall u :: u in r <==> u in users && u.id != id
  {
    if users == [] then []
    else (if users[0].id == id then [] else [users[0]]) + RemoveId(users[1..], id)
  }

  /** A list without that id is left as it was. */
  lemma {:induction false} RemoveAbsentId(users: seq<User>, id: int)
    requires forall u :: u in users ==> u.id != id
    ensures RemoveId(users, id) == users
  {
    if users != [] {
      RemoveAbsentId(users[1..], id);
      assert [users[0]] + users[1..] == users;
    }
  }

  /** `users.find(u => u.id === id) || currentUser`: the user `toggleBlacklist` acts on. */
  function BlacklistTarget(users: seq<User>, current: Option<User>, id: int): (r: Option<User>)
    ensures FindIndex(users, id) != -1 ==> r == Some(users[FindIndex(users, id)])
    ensures FindIndex(users, id) == -1 ==> r == current
  {
    var i := FindIndex(users, id);
    if i != -1 then Some(users[i]) else current
  }

  const UserNotFound := "User not found"

  /** The page's user list and the user on display. */
  class UserList {
    var users: seq<User>
    var currentUser: Option<User>
    var totalUsers: nat
    var error: Option<string>

    constructor()
      ensures users == [] && currentUser.None? && totalUsers == 0 && error.None?
    {
      users := [];
      currentUser := None;
      totalUsers := 0;
      error := None;
    }

    /**
     * `loadUsers()` once the request has run: on success the list and its count are
     * replaced, with a success notice only when users came back; on failure the
     * message is stored as the error.
     */
    method LoadUsers(fetched: Outcome<seq<User>>) returns (notice: Option<string>)
      modifies this
      ensures currentUser == old(currentUser)
      ensures fetched.Returned? ==> users == fetched.value && totalUsers == |fetched.value| && error == old(error)
      ensures fetched.Returned? ==>
                (notice.Some? <==> |fetched.value| > 0)
                && (notice.Some? ==> notice.value == "Loaded " + IntToString(|fetched.value|) + " users successfully")
      ensures fetched.Threw? ==> users == old(users) && totalUsers == old(totalUsers)
                                 && error == Some(fetched.message) && notice.None?
    {
      notice := None;
      if fetched.Threw? {
        error := Some(fetched.message);
        return;
      }
      users := fetched.value;
      totalUsers := |fetched.value|;
      if |fetched.value| > 0 {
        notice := Some("Loaded " + IntToString(|fetched.value|) + " users successfully");
      }
    }

    /** `getUser(id)` once the request has run: the user on display is the one returned. */
    method GetUser(fetched: Outcome<User>)
      modifies this
      ensures users == old(users) && totalUsers == old(totalUsers)
      ensures fetched.Returned? ==> currentUser == Some(fetched.value) && error == old(error)
      ensures fetched.Threw? ==> currentUser == old(currentUser) && error == Some(fetched.message)
    {
      if fetched.Threw? {
        error := Some(fetched.message);
        return;
      }
      currentUser := Some(fetched.value);
    }

    /**
     * `updateUser(id, updates)` once the request has run: the first entry with that
     * id becomes the returned user, and so does the user on display when its id
     * matches; nothing else in the list changes.
     */
    method UpdateUser(id: int, response: Outcome<User>)
      modifies this
      ensures totalUsers == old(totalUsers)
      ensures response.Threw? ==> users == old(users) && currentUser == old(currentUser)
                                  && error == Some(response.message)
      ensures response.Returned? && FindIndex(old(users), id) == -1 ==> users == old(users)
      ensures response.Returned? && FindIndex(old(users), id) != -1 ==>
                users == old(users)[FindIndex(old(users), id) := response.value]
      ensures response.Returned? && old(currentUser).Some? && old(currentUser).value.id == id ==>
                currentUser == Some(response.value)
      ensures response.Returned? && !(old(currentUser).Some? && old(currentUser).value.id == id) ==>
                currentUser == old(currentUser)
      ensures response.Returned? ==> error == old(error)
    {
      if response.Threw? {
        error := Some(response.message);
        return;
      }
      var userIndex := FindIndex(users, id);
      if userIndex != -1 {
        users := users[userIndex := response.value];
      }
      if currentUser.Some? && currentUser.value.id == id {
        currentUser := Some(response.value);
      }
    }

    /**
     * `deleteUser(id)` once the request has run: every entry with that id is
     * removed, the count follows the list, and the user on display is cleared
     * when its id matches.
     */
    method DeleteUser(id: int, response: Outcome<()>)
      modifies this
      ensures response.Threw? ==> users == old(users) && totalUsers == old(totalUsers)
                                  && currentUser == old(currentUser) && error == Some(response.message)
      ensures response.Returned? ==> users == RemoveId(old(users), id) && totalUsers == |users| && error == old(error)
      ensures response.Returned? && old(currentUser).Some? && old(currentUser).value.id == id ==> currentUser.None?
      ensures response.Returned? && !(old(currentUser).Some? && old(currentUser).value.id == id) ==>
                currentUser == old(currentUser)
    {
      if response.Threw? {
        error := Some(response.message);
        return;
      }
      users := RemoveId(users, id);
      totalUsers := |users|;
      if currentUser.Some? && currentUser.value.id == id {
        currentUser := None;
      }
    }

    /**
     * `toggleBlacklist(id)`: the user is looked up in the list, falling back to
     * the user on display; without one it fails with 'User not found' and asks
     * nothing. Otherwise it asks for the negated flag of that user and, on
     * success, words the notice after the flag it had. The state is not changed.
     */
    method ToggleBlacklist(id: int, response: Outcome<User>)
      returns (request: Option<bool>, result: Outcome<User>, notice: Option<string>)
      ensures BlacklistTarget(users, currentUser, id).None? ==>
                request.None? && result == Threw(UserNotFound) && notice.None?
      ensures BlacklistTarget(users, currentUser, id).Some? ==>
                request == Some(!BlacklistTarget(users, currentUser, id).value.blacklisted) && result == response
      ensures notice.Some? <==> BlacklistTarget(users, currentUser, id).Some? && response.Returned?
      ensures notice.Some? ==>
                notice.value == "User " + (if BlacklistTarget(users, currentUser, id).value.blacklisted then "removed from" else "added to")
                                + " blacklist successfully"
    {
      var i := FindIndex(users, id);
      var user := if i != -1 then Some(users[i]) else currentUser;
      if user.None? {
        return None, Threw(UserNotFound), None;
      }
      request := Some(!user.value.blacklisted);
      result := response;
      notice := None;
      if response.Returned? {
        var action := if user.value.blacklisted then "removed from" else "added to";
        notice := Some("User " + action + " blacklist successfully");
      }
    }

    /** `clearError()` as the composable exports it: the stored message is cleared. */
    method ClearUserError()
      modifies this
      ensures error.None? && users == old(users) && currentUser == old(currentUser) && totalUsers == old(totalUsers)
    {
      error := None;
    }
  }

  /** After a successful delete no entry has that id, and a second delete changes nothing. */
  lemma DeleteIsIdempotent(users: seq<User>, id: int)
    ensures forall u :: u in RemoveId(users, id) ==> u.id != id
    ensures RemoveId(RemoveId(users, id), id) == RemoveId(users, id)
  {
    RemoveAbsentId(RemoveId(users, id), id);
  }

  /** When the list has the id, the toggle acts on that entry even if another user is on display. */
  lemma ListEntryBeatsCurrentUser(users: seq<User>, current: User, id: int, i: nat)
    requires i < |users| && users[i].id == id
    ensures BlacklistTarget(users, Some(current), id).Some?
    ensures BlacklistTarget(users, Some(current), id).value.id == id
  {
    assert users[i] in users;
  }

  // ---------------------------------------------------------------------------
  // Role helpers

  /** `getRoleColor(role)` */
  function RoleColor(role: string): (r: string)
    ensures r == "grey" <==> role != "admin" && role != "mod" && role != "user"
  {
    match role
    case "admin" => "red"
    case "mod" => "orange"
    case "user" => "blue"
    case _ => "grey"
  }

  /** `getRoleIcon(role)` */
  function RoleIcon(role: string): (r: string)
    ensures r == "mdi-account-question" <==> role != "admin" && role != "mod" && role != "user"
  {
    match role
    case "admin" => "mdi-shield-crown"
    case "mod" => "mdi-shield-account"
    case "user" => "mdi-account"
    case _ => "mdi-account-question"
  }

  /** Colour and icon agree: distinct roles get distinct colours and icons. */
  lemma RoleColorAndIconAgree(a: string, b: string)
    ensures RoleColor(a) == RoleColor(b) <==> RoleIcon(a) == RoleIcon(b)
  {
  }
}
