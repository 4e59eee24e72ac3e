/**
 * The building blocks every resource client uses to fill a `URLSearchParams`:
 * an `if (value) params.append(key, value.toString())` for numbers and strings, a
 * repeated key for `select` lists, and the `/<resource>/<id>` paths.
 */
module Params {
  import opened Base
  import opened Query

  /** `if (v) params.append(key, v.toString())` for a number: 0 and a missing value add nothing. */
  function NumParam(key: string, v: Option<int>): (r: seq<Param>)
    ensures r != [] <==> v.Some? && v.value != 0
    ensures r != [] ==> r == [Param(key, IntToString(v.value))]
  {
    if v.Some? && v.value != 0 then [Param(key, IntToString(v.value))] else []
  }

  /** `if (v) params.append(key, v)` for a string: '' and a missing value add nothing. */
  function StrParam(key: string, v: Option<string>): (r: seq<Param>)
    ensures r != [] <==> TruthyStr(v)
    ensures r != [] ==> r == [Param(key, v.value)]
  {
    if TruthyStr(v) then [Param(key, v.value)] else []
  }

  /** `if (v) params.append(key, v.toString())` for a value typed `number | string`. */
  function ScalarParam(key: string, v: Option<Scalar>): (r: seq<Param>)
    ensures r != [] <==> v.Some? && TruthyScalar(v.value)
    ensures r != [] ==> r == [Param(key, ScalarText(v.value))]
  {
    if v.Some? && TruthyScalar(v.value) then [Param(key, ScalarText(v.value))] else []
  }

  /** A `{ field, order }` sort request. */
  datatype FieldOrder = FieldOrder(field: string, order: string)

  /** `if (sort) { append('sort[field]', ...); append('sort[order]', ...) }` */
  function SortFieldOrder(sort: Option<FieldOrder>): (r: seq<Param>)
    ensures sort.None? ==> r == []
    ensures sort.Some? ==> r == [Param("sort[field]", sort.value.field), Param("sort[order]", sort.value.order)]
  {
    if sort.Some? then [Param("sort[field]", sort.value.field), Param("sort[order]", sort.value.order)] else []
  }

  /** `fields.forEach(f => params.append(key, f))`: one pair per element, in order. */
  function Repeated(key: string, fields: seq<string>): (r: seq<Param>)
    ensures |r| == |fields|
    ensures forall i :: 0 <= i < |fields| ==> r[i] == Param(key, fields[i])
  {
    if fields == [] then [] else [Param(key, fields[0])] + Repeated(key, fields[1..])
  }

  /** `if (list) list.forEach(...)`: a missing list adds nothing, an empty one too. */
  function Select(fields: Option<seq<string>>): (r: seq<Param>)
    ensures fields.None? ==> r == []
    ensures fields.Some? ==> r == Repeated("select", fields.value)
  {
    if fields.Some? then Repeated("select", fields.value) else []
  }

  function Keys(ps: seq<Param>): (r: seq<string>)
    ensures |r| == |ps|
    ensures forall i :: 0 <= i < |ps| ==> r[i] == ps[i].key
  {
    if ps == [] then [] else [ps[0].key] + Keys(ps[1..])
  }

  /** `` `${base}/${id}` `` */
  function IdPath(base: string, id: int): string
  {
    base + "/" + IntToString(id)
  }

  /** Two ids share a path only when they are equal. */
  lemma IdPathInjective(base: string, a: int, b: int)
    requires IdPath(base, a) == IdPath(base, b)
    ensures a == b
  {
    var n := |base| + 1;
    assert IntToString(a) == IdPath(base, a)[n..];
    assert IntToString(b) == IdPath(base, b)[n..];
    IntToStringInjective(a, b);
  }

  /** `` `${IdPath}/${suffix}` `` */
  function IdAction(base: string, id: int, suffix: string): string
  {
    IdPath(base, id) + "/" + suffix
  }

  /**
   * A query whose pairs are always appended, even when empty: the URL always has
   * '?', and the query splits back into exactly the encoded pairs, in order.
   */
  function AlwaysQueryUrl(path: string, ps: seq<Param>): (r: string)
    requires ps != []
    ensures |r| > |path| && r[..|path| + 1] == path + "?"
    ensures Split(r[|path| + 1..], '&') == PairTexts(ps)
  {
    SerializeSplits(ps);
    var r := path + "?" + Serialize(ps);
    assert r[|path| + 1..] == Serialize(ps);
    r
  }

  /** Two paths given the same pairs differ only in the path. */
  lemma SameQuery(a: string, b: string, ps: seq<Param>)
    ensures |WithQuery(a, ps)| >= |a|
    ensures WithQuery(b, ps) == b + WithQuery(a, ps)[|a|..]
  {
    WithQueryShape(a, ps);
    WithQueryShape(b, ps);
    if ps != [] {
      assert WithQuery(a, ps)[|a|..] == "?" + Serialize(ps);
    } else {
      assert WithQuery(a, ps)[|a|..] == "";
    }
  }
}
