/**
  The two list updates both views apply to their records: `prev.filter(r => r.id !== id)`
  and `prev.map(r => r.id === updated.id ? updated : r)`. Ids are not unique (they come
  from the clock), so both are stated for every record that carries the id.
 */
module RecordStore {

  /** The records whose id is `id`, counted. */
  function Matching<T>(s: seq<T>, idOf: T -> string, id: string): (n: nat)
    ensures n <= |s|
  {
    if s == [] then 0 else (if idOf(s[0]) == id then 1 else 0) + Matching(s[1..], idOf, id)
  }

  /** `filter(r => r.id !== id)`: the records with another id, in their original order. */
  function RemoveId<T>(s: seq<T>, idOf: T -> string, id: string): (r: seq<T>)
    ensures forall i :: 0 <= i < |r| ==> r[i] in s && idOf(r[i]) != id
    ensures forall i :: 0 <= i < |s| && idOf(s[i]) != id ==> s[i] in r
    ensures |r| + Matching(s, idOf, id) == |s|
  {
    if s == [] then []
    else if idOf(s[0]) == id then RemoveId(s[1..], idOf, id)
    else [s[0]] + RemoveId(s[1..], idOf, id)
  }

  /** Filtering works piece by piece, so the records that stay keep their relative order. */
  lemma {:induction false} RemoveIdAppend<T>(a: seq<T>, b: seq<T>, idOf: T -> string, id: string)
    ensures RemoveId(a + b, idOf, id) == RemoveId(a, idOf, id) + RemoveId(b, idOf, id)
  {
    if a == [] {
      assert a + b == b;
    } else {
      assert (a + b)[0] == a[0];
      assert (a + b)[1..] == a[1..] + b;
      RemoveIdAppend(a[1..], b, idOf, id);
    }
  }

  /** Deleting an id that no record carries changes nothing. */
  lemma {:induction false} RemoveAbsentId<T>(s: seq<T>, idOf: T -> string, id: string)
    requires forall i :: 0 <= i < |s| ==> idOf(s[i]) != id
    ensures RemoveId(s, idOf, id) == s
  {
    if s != [] {
      RemoveAbsentId(s[1..], idOf, id);
      assert [s[0]] + s[1..] == s;
    }
  }

  /** Deleting the same id twice is the same as deleting it once. */
  lemma RemoveIdIdempotent<T>(s: seq<T>, idOf: T -> string, id: string)
    ensures RemoveId(RemoveId(s, idOf, id), idOf, id) == RemoveId(s, idOf, id)
  {
    var r := RemoveId(s, idOf, id);
    RemoveAbsentId(r, idOf, id);
  }

  /** `map(r => r.id === updated.id ? updated : r)` */
  function ReplaceId<T>(s: seq<T>, idOf: T -> string, updated: T): (r: seq<T>)
    ensures |r| == |s|
    ensures forall i :: 0 <= i < |s| ==> r[i] == (if idOf(s[i]) == idOf(updated) then updated else s[i])
  {
    seq(|s|, i requires 0 <= i < |s| => if idOf(s[i]) == idOf(updated) then updated else s[i])
  }

  /** Replacing never changes which id sits at which position. */
  lemma ReplaceKeepsIds<T>(s: seq<T>, idOf: T -> string, updated: T)
    ensures forall i :: 0 <= i < |s| ==> idOf(ReplaceId(s, idOf, updated)[i]) == idOf(s[i])
  {
  }

  /** The edited record is in the list afterwards exactly when some record carried its id. */
  lemma ReplacePresent<T>(s: seq<T>, idOf: T -> string, updated: T)
    ensures updated in ReplaceId(s, idOf, updated) <==> exists i :: 0 <= i < |s| && idOf(s[i]) == idOf(updated)
  {
    var r := ReplaceId(s, idOf, updated);
    if updated in r {
      var i :| 0 <= i < |r| && r[i] == updated;
      assert idOf(s[i]) == idOf(updated);
    }
    if exists i :: 0 <= i < |s| && idOf(s[i]) == idOf(updated) {
      var i :| 0 <= i < |s| && idOf(s[i]) == idOf(updated);
      assert r[i] == updated;
    }
  }

  /** Saving the same edit twice is the same as saving it once. */
  lemma ReplaceIdempotent<T>(s: seq<T>, idOf: T -> string, updated: T)
    ensures ReplaceId(ReplaceId(s, idOf, updated), idOf, updated) == ReplaceId(s, idOf, updated)
  {
  }

  /** Saving an edit with an id that no record carries changes nothing. */
  lemma ReplaceAbsentId<T>(s: seq<T>, idOf: T -> string, updated: T)
    requires forall i :: 0 <= i < |s| ==> idOf(s[i]) != idOf(updated)
    ensures ReplaceId(s, idOf, updated) == s
  {
  }

  /** Deleting after an edit removes the edited records as if they had never been edited. */
  lemma {:induction false} RemoveAfterReplace<T>(s: seq<T>, idOf: T -> string, updated: T)
    ensures RemoveId(ReplaceId(s, idOf, updated), idOf, idOf(updated)) == RemoveId(s, idOf, idOf(updated))
  {
    if s != [] {
      var r := ReplaceId(s, idOf, updated);
      assert r[1..] == ReplaceId(s[1..], idOf, updated);
      RemoveAfterReplace(s[1..], idOf, updated);
    }
  }
}
