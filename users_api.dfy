/**
 * The users client (`usersApi`): the list URL, built from whatever keys the
 * caller's params object has, and the user paths. Only the URLs are modelled; the
 * requests go through the HTTP client.
 */
module UsersApi {
  import opened Base
  import opened Query
  import opened Params

  /** A value of the params object as JavaScript sees it. */
  datatype Value = Undefined | Null | Prim(v: Scalar) | Obj(json: Json)

  /** `value.toString()`: a plain object renders as '[object Object]'. */
  function ValueText(v: Value): string
    requires v.Prim? || v.Obj?
  {
    if v.Prim? then ScalarText(v.v) else "[object Object]"
  }

  predicate Present(v: Value)
  {
    v != Undefined && v != Null
  }

  /** The pair one key contributes: none for null or undefined, JSON for an object `sort`. */
  function EntryParams(key: string, v: Value): (r: seq<Param>)
    ensures r == [] <==> !Present(v)
    ensures key == "sort" && v.Obj? ==> r == [Param(key, Stringify(v.json))]
    ensures v.Prim? ==> r == [Param(key, ScalarText(v.v))]
  {
    if !Present(v) then []
    else if key == "sort" && v.Obj? then [Param(key, Stringify(v.json))]
    else [Param(key, ValueText(v))]
  }

  /** The pairs of all entries, in the object's key order. */
  function EntriesParams(entries: seq<(string, Value)>): seq<Param>
  {
    if entries == [] then [] else EntryParams(entries[0].0, entries[0].1) + EntriesParams(entries[1..])
  }

  /** The keys whose value is neither null nor undefined, in order. */
  function PresentKeys(entries: seq<(string, Value)>): seq<string>
  {
    if entries == [] then []
    else (if Present(entries[0].1) then [entries[0].0] else []) + PresentKeys(entries[1..])
  }

  /** Every present key is sent once, in order, and no other: 0, false and '' included. */
  lemma {:induction false} KeysArePresentKeys(entries: seq<(string, Value)>)
    ensures Keys(EntriesParams(entries)) == PresentKeys(entries)
  {
    if entries != [] {
      KeysArePresentKeys(entries[1..]);
      KeysAppend(EntryParams(entries[0].0, entries[0].1), EntriesParams(entries[1..]));
    }
  }

  lemma KeysAppend(a: seq<Param>, b: seq<Param>)
    ensures Keys(a + b) == Keys(a) + Keys(b)
  {
  }

  lemma {:induction false} EntriesAppend(a: seq<(string, Value)>, b: seq<(string, Value)>)
    ensures EntriesParams(a + b) == EntriesParams(a) + EntriesParams(b)
  {
    if a == [] {
      assert a + b == b;
    } else {
      assert (a + b)[0] == a[0] && (a + b)[1..] == a[1..] + b;
      EntriesAppend(a[1..], b);
    }
  }

  /**
   * `getUsers(params)`: walks the object's keys in order, appending one pair for
   * each value that is neither null nor undefined. The URL is '/users' when no pair
   * was appended.
   */
  method GetUsersUrl(params: Option<seq<(string, Value)>>) returns (url: string)
    ensures params.None? ==> url == "/users"
    ensures params.Some? ==> url == WithQuery("/users", EntriesParams(params.value))
  {
    var queryParams: seq<Param> := [];
    if params.Some? {
      var entries := params.value;
      var i := 0;
      while i < |entries|
        invariant 0 <= i <= |entries|
        invariant queryParams == EntriesParams(entries[..i])
      {
        var (key, value) := entries[i];
        if value != Undefined && value != Null {
          if key == "sort" && value.Obj? {
            queryParams := queryParams + [Param(key, Stringify(value.json))];
          } else {
            queryParams := queryParams + [Param(key, ValueText(value))];
          }
        }
        EntriesAppend(entries[..i], [entries[i]]);
        assert entries[..i + 1] == entries[..i] + [entries[i]];
        i := i + 1;
      }
      assert entries[..i] == entries;
    }
    var queryString := Serialize(queryParams);
    url := if queryString != "" then "/users?" + queryString else "/users";
  }

  /** Without params, or with only null and undefined values, the request goes to '/users'. */
  lemma {:induction false} AbsentValuesGiveBarePath(entries: seq<(string, Value)>)
    requires forall i :: 0 <= i < |entries| ==> !Present(entries[i].1)
    ensures EntriesParams(entries) == []
    ensures WithQuery("/users", EntriesParams(entries)) == "/users"
  {
    if entries != [] {
      AbsentValuesGiveBarePath(entries[1..]);
    }
    WithQueryShape("/users", EntriesParams(entries));
  }

  /** A falsy value that is defined is still sent: 0 as '0', false as 'false'. */
  lemma FalsyValuesSent(key: string)
    ensures EntriesParams([(key, Prim(SNum(0)))]) == [Param(key, "0")]
    ensures EntriesParams([(key, Prim(SBool(false)))]) == [Param(key, "false")]
  {
    assert IntToString(0) == "0";
  }

  /** `getUser`, `updateUser` and `deleteUser`: '/users/{id}'; `createUser` posts to '/users'. */
  function UserUrl(id: int): string
  {
    IdPath("/users", id)
  }

  const CreateUserUrl := "/users"

  /** Different users never share a path, and no user path is the bare collection path. */
  lemma UserPaths(id: int, other: int)
    ensures UserUrl(id) == UserUrl(other) ==> id == other
    ensures UserUrl(id) != CreateUserUrl
  {
    if UserUrl(id) == UserUrl(other) {
      IdPathInjective("/users", id, other);
    }
    assert |UserUrl(id)| > |CreateUserUrl|;
  }
}
