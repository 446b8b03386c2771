/**
 * The three list operations every collection in the application performs on
 * records identified by a string `id`: `find` of the first match, `filter` of
 * everything but one id, and `map` that merges an update into the matching
 * records. They are stated once here, for any record type and its id selector.
 */
module Records {
  import opened Options

  /** Some record of `s` carries `id`. */
  predicate HasId<T>(s: seq<T>, idOf: T -> string, id: string) {
    exists i :: 0 <= i < |s| && idOf(s[i]) == id
  }

  /** `x` is the record at the first index of `s` that carries `id`. */
  predicate FirstWithId<T(==)>(s: seq<T>, idOf: T -> string, id: string, x: T) {
    exists i :: 0 <= i < |s| && s[i] == x && idOf(s[i]) == id &&
                forall j :: 0 <= j < i ==> idOf(s[j]) != id
  }

  /** `s.find(x => x.id === id)`: the first record carrying `id`, or none. */
  function FindFirst<T(==)>(s: seq<T>, idOf: T -> string, id: string): (r: Option<T>)
    ensures r.None? <==> !HasId(s, idOf, id)
    ensures r.Some? ==> FirstWithId(s, idOf, id, r.value)
  {
    if |s| == 0 then None
    else if idOf(s[0]) == id then Some(s[0])
    else
      var r := FindFirst(s[1..], idOf, id);
      assert HasId(s, idOf, id) ==> HasId(s[1..], idOf, id) by {
        if HasId(s, idOf, id) {
          var i :| 0 <= i < |s| && idOf(s[i]) == id;
          assert i > 0 && idOf(s[1..][i - 1]) == id;
        }
      }
      if r.Some? then
        var i :| 0 <= i < |s[1..]| && s[1..][i] == r.value && idOf(s[1..][i]) == id &&
                 forall j :: 0 <= j < i ==> idOf(s[1..][j]) != id;
        assert s[i + 1] == r.value && forall j :: 0 <= j < i + 1 ==> idOf(s[j]) != id by {
          forall j | 0 <= j < i + 1 ensures idOf(s[j]) != id {
            if j > 0 { assert s[j] == s[1..][j - 1]; }
          }
        }
        r
      else r
  }

  /** `s.filter(x => x.id !== id)`. */
  function RemoveId<T>(s: seq<T>, idOf: T -> string, id: string): (r: seq<T>)
    ensures |r| <= |s|
    ensures forall k :: 0 <= k < |r| ==> r[k] in s && idOf(r[k]) != id
    ensures forall k :: 0 <= k < |s| && idOf(s[k]) != id ==> s[k] in r
    ensures !HasId(r, idOf, id)
  {
    if |s| == 0 then []
    else if idOf(s[0]) == id then RemoveId(s[1..], idOf, id)
    else [s[0]] + RemoveId(s[1..], idOf, id)
  }

  /** `s.map(x => x.id === id ? merge(x) : x)`. */
  function UpdateWhere<T>(s: seq<T>, idOf: T -> string, id: string, merge: T -> T): (r: seq<T>)
    ensures |r| == |s|
    ensures forall i :: 0 <= i < |s| ==> r[i] == if idOf(s[i]) == id then merge(s[i]) else s[i]
  {
    if |s| == 0 then []
    else [if idOf(s[0]) == id then merge(s[0]) else s[0]] + UpdateWhere(s[1..], idOf, id, merge)
  }

  /** Removing an id is done record by record, so it keeps the order of what remains. */
  lemma {:induction false} RemoveIdConcat<T>(a: seq<T>, b: seq<T>, idOf: T -> string, id: string)
    ensures RemoveId(a + b, idOf, id) == RemoveId(a, idOf, id) + RemoveId(b, idOf, id)
  {
    if |a| == 0 {
      assert a + b == b;
    } else {
      assert (a + b)[1..] == a[1..] + b;
      RemoveIdConcat(a[1..], b, idOf, id);
    }
  }

  /** Removing an id no record carries changes nothing. */
  lemma {:induction false} RemoveAbsentId<T>(s: seq<T>, idOf: T -> string, id: string)
    requires !HasId(s, idOf, id)
    ensures RemoveId(s, idOf, id) == s
  {
    if |s| > 0 {
      forall k | 0 <= k < |s[1..]| ensures idOf(s[1..][k]) != id {
        assert s[1..][k] == s[k + 1];
      }
      assert idOf(s[0]) != id;
      RemoveAbsentId(s[1..], idOf, id);
      assert s == [s[0]] + s[1..];
    }
  }

  /** Removing the same id twice is removing it once. */
  lemma RemoveIdIdempotent<T>(s: seq<T>, idOf: T -> string, id: string)
    ensures RemoveId(RemoveId(s, idOf, id), idOf, id) == RemoveId(s, idOf, id)
  {
    RemoveAbsentId(RemoveId(s, idOf, id), idOf, id);
  }

  /** Records carrying other ids are kept, and in the same relative order. */
  lemma {:induction false} RemoveIdKeepsOthers<T>(s: seq<T>, idOf: T -> string, id: string, i: nat, j: nat)
    requires i < j < |s| && idOf(s[i]) != id && idOf(s[j]) != id
    ensures exists i', j' :: 0 <= i' < j' < |RemoveId(s, idOf, id)| &&
                             RemoveId(s, idOf, id)[i'] == s[i] && RemoveId(s, idOf, id)[j'] == s[j]
  {
    var a, b, c := s[..i], s[i..j], s[j..];
    assert s == a + (b + c);
    RemoveIdConcat(a, b + c, idOf, id);
    RemoveIdConcat(b, c, idOf, id);
    var ra, rb, rc := RemoveId(a, idOf, id), RemoveId(b, idOf, id), RemoveId(c, idOf, id);
    assert b[0] == s[i] && c[0] == s[j];
    assert rb[0] == s[i];
    assert rc[0] == s[j];
    var r := RemoveId(s, idOf, id);
    assert r == ra + (rb + rc);
    assert r[|ra|] == s[i];
    assert r[|ra| + |rb|] == s[j];
  }

  /** The record found is the one at the first index carrying the id. */
  lemma {:induction false} FindFirstAt<T>(s: seq<T>, idOf: T -> string, id: string, i: nat)
    requires i < |s| && idOf(s[i]) == id
    requires forall j :: 0 <= j < i ==> idOf(s[j]) != id
    ensures FindFirst(s, idOf, id) == Some(s[i])
  {
    if i > 0 {
      forall j | 0 <= j < i - 1 ensures idOf(s[1..][j]) != id {
        assert s[1..][j] == s[j + 1];
      }
      FindFirstAt(s[1..], idOf, id, i - 1);
    }
  }

  /** Updating an id no record carries changes nothing. */
  lemma UpdateAbsentId<T>(s: seq<T>, idOf: T -> string, id: string, merge: T -> T)
    requires !HasId(s, idOf, id)
    ensures UpdateWhere(s, idOf, id, merge) == s
  {
  }

  /**
   * After an update that keeps the id, finding that id yields the merge of
   * the record that was found before.
   */
  lemma FindAfterUpdate<T>(s: seq<T>, idOf: T -> string, id: string, merge: T -> T)
    requires forall x :: idOf(merge(x)) == idOf(x)
    ensures FindFirst(UpdateWhere(s, idOf, id, merge), idOf, id) ==
            match FindFirst(s, idOf, id) case None => None case Some(x) => Some(merge(x))
  {
    var u := UpdateWhere(s, idOf, id, merge);
    assert forall k :: 0 <= k < |s| ==> idOf(u[k]) == idOf(s[k]);
    var before := FindFirst(s, idOf, id);
    if before.Some? {
      var i :| 0 <= i < |s| && s[i] == before.value && idOf(s[i]) == id &&
               forall j :: 0 <= j < i ==> idOf(s[j]) != id;
      FindFirstAt(u, idOf, id, i);
    }
  }

  /** Appending a record whose id is new makes it the record found for that id. */
  lemma FindAppendedFresh<T>(s: seq<T>, x: T, idOf: T -> string)
    requires !HasId(s, idOf, idOf(x))
    ensures FindFirst(s + [x], idOf, idOf(x)) == Some(x)
  {
    FindFirstAt(s + [x], idOf, idOf(x), |s|);
  }

  /** Removing an id erases every earlier update of that id, when the update keeps ids. */
  lemma {:induction false} RemoveAfterUpdate<T>(s: seq<T>, idOf: T -> string, id: string, merge: T -> T)
    requires forall x :: idOf(merge(x)) == idOf(x)
    ensures RemoveId(UpdateWhere(s, idOf, id, merge), idOf, id) == RemoveId(s, idOf, id)
  {
    if |s| > 0 {
      RemoveAfterUpdate(s[1..], idOf, id, merge);
      assert UpdateWhere(s, idOf, id, merge)[1..] == UpdateWhere(s[1..], idOf, id, merge);
    }
  }
}
