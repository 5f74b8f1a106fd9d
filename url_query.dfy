/**
 * The query of a URL as a list of name-value pairs, with the `get`, `set` and `delete`
 * operations of the URLSearchParams class (section 6.2 of the WHATWG URL Standard).
 * The history of the page publishes these pairs; their serialisation is not modelled.
 */
module UrlQuery {
  import opened Wrappers
  import opened Seqs

  datatype Pair = Pair(name: string, value: string)

  function NameIs(name: string): Pair -> bool { (p: Pair) => p.name == name }
  function NameIsNot(name: string): Pair -> bool { (p: Pair) => p.name != name }

  /** `getAll(name)`: the pairs whose name is `name`, in list order. */
  function Named(q: seq<Pair>, name: string): (r: seq<Pair>)
    ensures forall p :: p in r <==> p in q && p.name == name
  {
    Filter(q, NameIs(name))
  }

  /** `get(name)`: the value of the first pair whose name is `name`, or null. */
  function GetValue(q: seq<Pair>, name: string): (r: Option<string>)
    ensures r.Some? ==> Pair(name, r.value) in q
    ensures r.None? <==> forall p :: p in q ==> p.name != name
  {
    var named := Named(q, name);
    if named == [] then None
    else
      assert named[0] in named;
      Some(named[0].value)
  }

  /** `delete(name)`: remove every pair whose name is `name`. */
  function DeleteAll(q: seq<Pair>, name: string): (r: seq<Pair>)
    ensures forall p :: p in r <==> p in q && p.name != name
  {
    Filter(q, NameIsNot(name))
  }

  /**
   * `set(name, value)`: if some pair has name `name`, set the value of the first such
   * pair and remove the others; otherwise append a new pair at the end.
   */
  function SetValue(q: seq<Pair>, name: string, value: string): (r: seq<Pair>)
    ensures Named(r, name) == [Pair(name, value)]
    ensures DeleteAll(r, name) == DeleteAll(q, name)
  {
    if q == [] then
      var r := [Pair(name, value)];
      NamedCons(r, name);
      DeleteAllCons(r, name);
      r
    else if q[0].name == name then
      var rest := DeleteAll(q[1..], name);
      var r := [Pair(name, value)] + rest;
      assert r[0] == Pair(name, value) && r[1..] == rest;
      NamedCons(r, name);
      DeleteAllCons(r, name);
      DeleteAllCons(q, name);
      DeleteAllNamed(q[1..], name);
      DeleteNoop(rest, name);
      r
    else
      var rest := SetValue(q[1..], name, value);
      var r := [q[0]] + rest;
      assert r[0] == q[0] && r[1..] == rest;
      NamedCons(r, name);
      DeleteAllCons(r, name);
      DeleteAllCons(q, name);
      r
  }

  /** One step of `set` past a pair with another name. */
  lemma SetValueSkip(q: seq<Pair>, name: string, value: string)
    requires q != [] && q[0].name != name
    ensures SetValue(q, name, value) == [q[0]] + SetValue(q[1..], name, value)
  {
  }

  /** `set` at a pair with that name: replace it and drop the later ones. */
  lemma SetValueHit(q: seq<Pair>, name: string, value: string)
    requires q != [] && q[0].name == name
    ensures SetValue(q, name, value) == [Pair(name, value)] + DeleteAll(q[1..], name)
  {
  }

  /** One step of `getAll`: the first pair, if named `name`, followed by the rest. */
  lemma NamedCons(q: seq<Pair>, name: string)
    requires q != []
    ensures Named(q, name) == (if q[0].name == name then [q[0]] else []) + Named(q[1..], name)
  {
  }

  /** One step of `delete`: the first pair, unless named `name`, followed by the rest. */
  lemma DeleteAllCons(q: seq<Pair>, name: string)
    requires q != []
    ensures DeleteAll(q, name) == (if q[0].name != name then [q[0]] else []) + DeleteAll(q[1..], name)
  {
  }

  /** The pairs left by `delete(name)` carry no pair named `name`. */
  lemma DeleteAllNamed(q: seq<Pair>, name: string)
    ensures Named(DeleteAll(q, name), name) == []
  {
    FilterKeepsNone(DeleteAll(q, name), NameIs(name));
  }

  /** `delete(name)` changes nothing when no pair has that name. */
  lemma DeleteNoop(q: seq<Pair>, name: string)
    requires forall p :: p in q ==> p.name != name
    ensures DeleteAll(q, name) == q
  {
    FilterKeepsAll(q, NameIsNot(name));
  }

  /** The first pair named `name` is the one whose value `get` returns. */
  lemma GetValueAt(q: seq<Pair>, name: string, i: int)
    requires 0 <= i < |q| && q[i].name == name
    requires forall j :: 0 <= j < i ==> q[j].name != name
    ensures GetValue(q, name) == Some(q[i].value)
  {
    FirstMatchAt(q, NameIs(name), i);
  }

  /** `get` depends only on the pairs with that name. */
  lemma GetValueOfNamed(q: seq<Pair>, q': seq<Pair>, name: string)
    requires Named(q, name) == Named(q', name)
    ensures GetValue(q, name) == GetValue(q', name)
  {
  }

  /** `delete(name)` leaves the pairs of every other name as they were, in order. */
  lemma {:induction false} DeleteKeepsOthers(q: seq<Pair>, name: string, other: string)
    requires other != name
    ensures Named(DeleteAll(q, name), other) == Named(q, other)
  {
    if q != [] {
      var d := DeleteAll(q, name);
      DeleteAllCons(q, name);
      NamedCons(q, other);
      DeleteKeepsOthers(q[1..], name, other);
      if q[0].name != name {
        assert d == [q[0]] + DeleteAll(q[1..], name);
        assert d[0] == q[0] && d[1..] == DeleteAll(q[1..], name);
        NamedCons(d, other);
      } else {
        assert d == DeleteAll(q[1..], name);
        assert Named(q, other) == Named(q[1..], other);
      }
    }
  }

  /** `set(name, value)` leaves the pairs of every other name as they were, in order. */
  lemma SetKeepsOthers(q: seq<Pair>, name: string, value: string, other: string)
    requires other != name
    ensures Named(SetValue(q, name, value), other) == Named(q, other)
    ensures GetValue(SetValue(q, name, value), other) == GetValue(q, other)
  {
    var r := SetValue(q, name, value);
    DeleteKeepsOthers(r, name, other);
    DeleteKeepsOthers(q, name, other);
    GetValueOfNamed(r, q, other);
  }

  /** When no pair has name `name`, `set` appends exactly one pair at the end. */
  lemma {:induction false} SetAppends(q: seq<Pair>, name: string, value: string)
    requires forall p :: p in q ==> p.name != name
    ensures SetValue(q, name, value) == q + [Pair(name, value)]
  {
    if q != [] {
      assert q[0] in q;
      assert forall p :: p in q[1..] ==> p in q;
      SetValueSkip(q, name, value);
      SetAppends(q[1..], name, value);
      AppendAfterHead(q, Pair(name, value));
    }
  }

  /**
   * When the first pair named `name` is at index `i`, `set` keeps everything before it,
   * puts the new value at index `i`, and drops the later pairs with that name.
   */
  lemma {:induction false} SetInPlace(q: seq<Pair>, name: string, value: string, i: int)
    requires 0 <= i < |q| && q[i].name == name
    requires forall j :: 0 <= j < i ==> q[j].name != name
    ensures SetValue(q, name, value) == q[..i] + [Pair(name, value)] + DeleteAll(q[i + 1..], name)
  {
    if i > 0 {
      var tail := q[1..];
      assert tail[i - 1] == q[i];
      assert forall j :: 0 <= j < i - 1 ==> tail[j] == q[j + 1];
      SetInPlace(tail, name, value, i - 1);
      assert tail[i - 1 + 1..] == q[i + 1..];
      SetInPlaceStep(q, name, value, i);
    } else {
      SetValueHit(q, name, value);
      assert q[..0] + [Pair(name, value)] == [Pair(name, value)];
    }
  }

  /** The inductive step of `SetInPlace`: one pair with another name in front. */
  lemma SetInPlaceStep(q: seq<Pair>, name: string, value: string, i: int)
    requires 0 < i < |q| && q[0].name != name
    requires SetValue(q[1..], name, value) == q[1..][..i - 1] + [Pair(name, value)] + DeleteAll(q[i + 1..], name)
    ensures SetValue(q, name, value) == q[..i] + [Pair(name, value)] + DeleteAll(q[i + 1..], name)
  {
    SetValueSkip(q, name, value);
    PrefixAfterHead(q, i, Pair(name, value), DeleteAll(q[i + 1..], name));
  }

  /** `set(name, value)` changes nothing when the only pair named `name` already has `value`. */
  lemma {:induction false} SetNoop(q: seq<Pair>, name: string, value: string)
    requires Named(q, name) == [Pair(name, value)]
    ensures SetValue(q, name, value) == q
  {
    NamedCons(q, name);
    if q[0].name == name {
      assert Named(q[1..], name) == [];
      assert forall p :: p in q[1..] ==> p.name != name;
      DeleteNoop(q[1..], name);
    } else {
      SetNoop(q[1..], name, value);
    }
    assert q == [q[0]] + q[1..];
  }

  /** Setting the same value twice is the same as setting it once. */
  lemma SetIdempotent(q: seq<Pair>, name: string, value: string)
    ensures SetValue(SetValue(q, name, value), name, value) == SetValue(q, name, value)
  {
    SetNoop(SetValue(q, name, value), name, value);
  }

  /**
   * The query object of the page. The source mutates it in place with `set` and
   * `delete` before publishing it to the browser history.
   */
  class SearchParams {
    var pairs: seq<Pair>

    constructor (init: seq<Pair>)
      ensures pairs == init
    {
      pairs := init;
    }

    method Set(name: string, value: string)
      modifies this
      ensures pairs == SetValue(old(pairs), name, value)
      ensures GetValue(pairs, name) == Some(value)
    {
      pairs := SetValue(pairs, name, value);
      GetValueOfNamed(pairs, [Pair(name, value)], name);
    }

    method Delete(name: string)
      modifies this
      ensures pairs == DeleteAll(old(pairs), name)
      ensures GetValue(pairs, name) == None
    {
      pairs := DeleteAll(pairs, name);
    }
  }
}
