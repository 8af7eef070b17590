/**
  The data of the mock database: bear records, the store that holds them,
  and the predicates that describe every store the service can reach.
 */
module BearModel {

  /** A value that may be missing, as `req.body.name` may be undefined. */
  datatype Option<+T> = None | Some(value: T)

  /** One stored record: `_id` is assigned by the store, `name` comes from the request body. */
  datatype Bear = Bear(id: nat, name: Option<string>)

  /** The module-level `bears` array and `nextId` counter of the mock. */
  datatype Store = Store(bears: seq<Bear>, nextId: nat)

  /** The state at start-up: no bears, and the counter at 1. */
  const Empty: Store := Store([], 1)

  /** Some record of `bs` carries `id`. */
  predicate HasId(bs: seq<Bear>, id: nat) {
    exists i :: 0 <= i < |bs| && bs[i].id == id
  }

  /** The number of records of `bs` that carry `id`. */
  function Count(bs: seq<Bear>, id: nat): (n: nat)
    ensures n <= |bs|
    ensures n == 0 <==> !HasId(bs, id)
  {
    if |bs| == 0 then 0
    else
      var rest := Count(bs[1..], id);
      assert forall i :: 0 < i < |bs| ==> bs[i] == bs[1..][i - 1];
      (if bs[0].id == id then 1 else 0) + rest
  }

  lemma {:induction false} CountAppend(a: seq<Bear>, b: seq<Bear>, id: nat)
    ensures Count(a + b, id) == Count(a, id) + Count(b, id)
    decreases |a|
  {
    if |a| != 0 {
      assert (a + b)[1..] == a[1..] + b;
      CountAppend(a[1..], b, id);
    } else {
      assert a + b == b;
    }
  }

  /** Every stored id was handed out by the counter: the counter starts at 1 and has moved past each of them. */
  predicate IdsIssued(s: Store) {
    && s.nextId >= 1
    && forall i :: 0 <= i < |s.bears| ==> 1 <= s.bears[i].id < s.nextId
  }

  /**
    Records sharing an id are one object in the mock (an update pushes the
    object it found a second time), so they agree on every field.
   */
  predicate Aliased(bs: seq<Bear>) {
    forall i, j :: 0 <= i < |bs| && 0 <= j < |bs| && bs[i].id == bs[j].id ==> bs[i] == bs[j]
  }

  /** What holds of every store the service can reach from `Empty`. */
  predicate Valid(s: Store) {
    IdsIssued(s) && Aliased(s.bears)
  }
}
