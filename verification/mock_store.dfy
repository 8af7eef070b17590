/**
  The `MockBear` class of server.js: the constructor, `save`, `find`,
  `findById` and `remove`, each as a pure function of the store. The
  callbacks of the source never receive an error, so each operation
  returns its result directly.
 */
module MockStore {
  import opened BearModel

  /** `new Bear({ name })`: the new record takes the current counter, and the counter advances. */
  function Construct(s: Store, name: Option<string>): (r: (Bear, Store))
    ensures r.0 == Bear(s.nextId, name)
    ensures r.1 == Store(s.bears, s.nextId + 1)
    ensures IdsIssued(s) ==> !HasId(s.bears, r.0.id) && IdsIssued(r.1)
  {
    (Bear(s.nextId, name), Store(s.bears, s.nextId + 1))
  }

  /** `save`: pushes the record onto the end of the list, whether or not it is already there. */
  function Save(s: Store, b: Bear): (r: Store)
    ensures |r.bears| == |s.bears| + 1
    ensures r.bears[..|s.bears|] == s.bears && r.bears[|s.bears|] == b
    ensures r.nextId == s.nextId
    ensures Count(r.bears, b.id) == Count(s.bears, b.id) + 1
  {
    var bs := s.bears + [b];
    CountAppend(s.bears, [b], b.id);
    Store(bs, s.nextId)
  }

  /** `find`: the whole list, in the order it was pushed. */
  function Find(s: Store): seq<Bear> {
    s.bears
  }

  /** `findById`: the first record whose id matches, or nothing. */
  function FindById(bs: seq<Bear>, id: nat): (r: Option<Bear>)
    ensures r.None? <==> !HasId(bs, id)
    ensures r.Some? ==>
      exists i :: 0 <= i < |bs| && bs[i] == r.value && r.value.id == id
                  && forall j :: 0 <= j < i ==> bs[j].id != id
  {
    if |bs| == 0 then None
    else if bs[0].id == id then Some(bs[0])
    else
      var r := FindById(bs[1..], id);
      assert forall i :: 0 < i < |bs| ==> bs[i] == bs[1..][i - 1];
      r
  }

  /** `remove`: keeps exactly the records whose id differs from `id`. */
  function Remove(bs: seq<Bear>, id: nat): (r: seq<Bear>)
    ensures forall i :: 0 <= i < |r| ==> r[i].id != id && r[i] in bs
    ensures forall i :: 0 <= i < |bs| && bs[i].id != id ==> bs[i] in r
    ensures |r| == |bs| - Count(bs, id)
  {
    if |bs| == 0 then []
    else
      var rest := Remove(bs[1..], id);
      assert forall i :: 0 < i < |bs| ==> bs[i] == bs[1..][i - 1];
      if bs[0].id == id then rest else [bs[0]] + rest
  }

  /** Removing from a concatenation removes from each part: with `RemoveOne`, this fixes `Remove` as an order-preserving filter. */
  lemma {:induction false} RemoveAppend(a: seq<Bear>, b: seq<Bear>, id: nat)
    ensures Remove(a + b, id) == Remove(a, id) + Remove(b, id)
    decreases |a|
  {
    if |a| != 0 {
      assert (a + b)[1..] == a[1..] + b;
      assert (a + b)[0] == a[0];
      RemoveAppend(a[1..], b, id);
    } else {
      assert a + b == b;
    }
  }

  /** On a single record `Remove` drops it exactly when its id matches. */
  lemma RemoveOne(b: Bear, id: nat)
    ensures Remove([b], id) == if b.id == id then [] else [b]
  {
    assert [b][1..] == [];
  }

  /** A list without the id is left exactly as it is. */
  lemma {:induction false} RemoveAbsent(bs: seq<Bear>, id: nat)
    requires !HasId(bs, id)
    ensures Remove(bs, id) == bs
    decreases |bs|
  {
    if |bs| != 0 {
      assert bs[0].id != id;
      assert !HasId(bs[1..], id) by {
        forall i | 0 <= i < |bs[1..]|
          ensures bs[1..][i].id != id
        {
          assert bs[1..][i] == bs[i + 1];
        }
      }
      RemoveAbsent(bs[1..], id);
    }
  }

  /** Removing twice is removing once. */
  lemma RemoveIdempotent(bs: seq<Bear>, id: nat)
    ensures Remove(Remove(bs, id), id) == Remove(bs, id)
  {
    RemoveAbsent(Remove(bs, id), id);
  }
}
