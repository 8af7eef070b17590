/**
  Properties of the service over whole runs of requests: the store stays
  well formed, ids come from a counter that only moves forward, deleted
  ids never come back, and what an update and a delete really do.
 */
module Properties {
  import opened BearModel
  import opened MockStore
  import opened Routes

  /** A create keeps the store well formed: the new id is above every stored one. */
  lemma PostPreservesValid(s: Store, name: Option<string>)
    requires Valid(s)
    ensures Valid(Post(s, name).store)
  {
  }

  /**
    Renaming every record with `id` and appending one more with that id and
    the new name keeps records that share an id equal.
   */
  lemma RenameAppendKeepsAliased(bs: seq<Bear>, r: seq<Bear>, id: nat, name: Option<string>)
    requires Aliased(bs)
    requires |r| == |bs| + 1 && r[|bs|] == Bear(id, name)
    requires forall i :: 0 <= i < |bs| ==>
               r[i].id == bs[i].id
               && (bs[i].id == id ==> r[i].name == name)
               && (bs[i].id != id ==> r[i] == bs[i])
    ensures Aliased(r)
  {
    forall i, j | 0 <= i < |r| && 0 <= j < |r| && r[i].id == r[j].id
      ensures r[i] == r[j]
    {
      if r[i].id == id {
        assert r[i] == Bear(id, name) && r[j] == Bear(id, name);
      } else {
        assert i < |bs| && j < |bs|;
        assert r[i] == bs[i] && r[j] == bs[j];
      }
    }
  }

  /** An update keeps the store well formed because it renames every copy of the record together. */
  lemma PutPreservesValid(s: Store, id: nat, name: Option<string>)
    requires Valid(s)
    ensures Valid(Put(s, id, name).store)
  {
    if HasId(s.bears, id) {
      var t := Put(s, id, name).store;
      RenameAppendKeepsAliased(s.bears, t.bears, id, name);
      var k :| 0 <= k < |s.bears| && s.bears[k].id == id;
      assert 1 <= id < s.nextId;
    }
  }

  /** A delete keeps the store well formed: what remains was already there. */
  lemma DeletePreservesValid(s: Store, id: nat)
    requires Valid(s)
    ensures Valid(Delete(s, id).store)
  {
  }

  /** Every handler keeps the store well formed. */
  lemma HandlePreservesValid(s: Store, req: Request)
    requires Valid(s)
    ensures Valid(Handle(s, req).store)
  {
    match req
    case ApiRoot =>
    case ListBears =>
    case GetBear(_) =>
    case CreateBear(name) => PostPreservesValid(s, name);
    case UpdateBear(id, name) => PutPreservesValid(s, id, name);
    case DeleteBear(id) => DeletePreservesValid(s, id);
  }

  /** Any sequence of requests keeps the store well formed. */
  lemma {:induction false} RunPreservesValid(s: Store, reqs: seq<Request>)
    requires Valid(s)
    ensures Valid(Run(s, reqs))
    decreases |reqs|
  {
    if |reqs| != 0 {
      HandlePreservesValid(s, reqs[0]);
      RunPreservesValid(Handle(s, reqs[0]).store, reqs[1..]);
    }
  }

  /** Every store reachable from start-up is well formed. */
  lemma Reachable(reqs: seq<Request>)
    ensures Valid(Run(Empty, reqs))
  {
    RunPreservesValid(Empty, reqs);
  }

  /** The number of create requests in `reqs`. */
  function Creates(reqs: seq<Request>): nat {
    if |reqs| == 0 then 0 else (if reqs[0].CreateBear? then 1 else 0) + Creates(reqs[1..])
  }

  /** The counter moves by exactly one per create and never goes back, whatever else happens. */
  lemma {:induction false} RunAdvancesCounter(s: Store, reqs: seq<Request>)
    ensures Run(s, reqs).nextId == s.nextId + Creates(reqs)
    decreases |reqs|
  {
    if |reqs| != 0 {
      RunAdvancesCounter(Handle(s, reqs[0]).store, reqs[1..]);
    }
  }

  /** An id below the counter, deleted or not, is never handed to a later bear. */
  lemma NoIdReuse(s: Store, reqs: seq<Request>, id: nat, name: Option<string>)
    requires id < s.nextId
    ensures Post(Run(s, reqs), name).response.body.bear.id > id
  {
    RunAdvancesCounter(s, reqs);
  }

  /** One create request per name, in order. */
  function Creations(names: seq<Option<string>>): seq<Request> {
    if |names| == 0 then [] else [CreateBear(names[0])] + Creations(names[1..])
  }

  /** Handling a request and then the rest is handling them all. */
  lemma RunCons(s: Store, req: Request, rest: seq<Request>)
    ensures Run(s, [req] + rest) == Run(Handle(s, req).store, rest)
  {
    assert ([req] + rest)[1..] == rest;
  }

  /** The bears that creates for `names` make when the counter stands at `start`. */
  function Numbered(start: nat, names: seq<Option<string>>): (r: seq<Bear>)
    ensures |r| == |names|
    decreases |names|
  {
    if |names| == 0 then []
    else [Bear(start, names[0])] + Numbered(start + 1, names[1..])
  }

  /** The i-th bear of `Numbered` carries id `start + i` and the i-th name. */
  lemma {:induction false} NumberedAt(start: nat, names: seq<Option<string>>, i: nat)
    requires i < |names|
    ensures Numbered(start, names)[i] == Bear(start + i, names[i])
    decreases |names|
  {
    if i != 0 {
      NumberedAt(start + 1, names[1..], i - 1);
    }
  }

  /** Peeling the first bear off `Numbered` onto the list before it. */
  lemma NumberedStep(bs: seq<Bear>, start: nat, names: seq<Option<string>>)
    requires |names| != 0
    ensures bs + Numbered(start, names) == (bs + [Bear(start, names[0])]) + Numbered(start + 1, names[1..])
  {
    assert Numbered(start, names) == [Bear(start, names[0])] + Numbered(start + 1, names[1..]);
  }

  /** A single create appends one bear carrying the counter and advances the counter. */
  lemma CreateAppends(s: Store, name: Option<string>)
    ensures Handle(s, CreateBear(name)).store == Store(s.bears + [Bear(s.nextId, name)], s.nextId + 1)
  {
  }

  /** A run that starts with a create continues from the store that create leaves. */
  lemma RunCreate(s: Store, name: Option<string>, rest: seq<Request>)
    ensures Run(s, [CreateBear(name)] + rest) == Run(Store(s.bears + [Bear(s.nextId, name)], s.nextId + 1), rest)
  {
    RunCons(s, CreateBear(name), rest);
    CreateAppends(s, name);
  }

  /** Successive creates append bears with successive ids, starting from the counter. */
  lemma {:induction false} SuccessiveIds(s: Store, names: seq<Option<string>>)
    ensures Run(s, Creations(names)) == Store(s.bears + Numbered(s.nextId, names), s.nextId + |names|)
    decreases |names|
  {
    if |names| != 0 {
      var t := Store(s.bears + [Bear(s.nextId, names[0])], s.nextId + 1);
      calc {
        Run(s, Creations(names));
        { assert Creations(names) == [CreateBear(names[0])] + Creations(names[1..]);
          RunCreate(s, names[0], Creations(names[1..])); }
        Run(t, Creations(names[1..]));
        { SuccessiveIds(t, names[1..]); }
        Store(t.bears + Numbered(t.nextId, names[1..]), t.nextId + |names[1..]|);
        { NumberedStep(s.bears, s.nextId, names); }
        Store(s.bears + Numbered(s.nextId, names), s.nextId + |names|);
      }
    } else {
      assert Creations(names) == [];
      assert s.bears + Numbered(s.nextId, names) == s.bears;
    }
  }

  /** From start-up, the i-th created bear gets id i + 1. */
  lemma IdsFromOne(names: seq<Option<string>>)
    ensures |Run(Empty, Creations(names)).bears| == |names|
    ensures forall i :: 0 <= i < |names| ==> Run(Empty, Creations(names)).bears[i] == Bear(i + 1, names[i])
  {
    SuccessiveIds(Empty, names);
    assert Empty.bears + Numbered(1, names) == Numbered(1, names);
    forall i | 0 <= i < |names|
      ensures Numbered(1, names)[i] == Bear(i + 1, names[i])
    {
      NumberedAt(1, names, i);
    }
  }

  /** An id absent from the store and below the counter stays absent through any run. */
  lemma {:induction false} StaysAbsent(s: Store, reqs: seq<Request>, id: nat)
    requires id < s.nextId && !HasId(s.bears, id)
    ensures !HasId(Run(s, reqs).bears, id)
    decreases |reqs|
  {
    if |reqs| != 0 {
      var t := Handle(s, reqs[0]).store;
      assert !HasId(t.bears, id) by {
        match reqs[0]
        case CreateBear(name) =>
          assert t.bears == s.bears + [Bear(s.nextId, name)];
        case UpdateBear(k, name) =>
          if HasId(s.bears, k) {
            assert t.bears == Rename(s.bears, k, name) + [Bear(k, name)];
          }
        case _ =>
      }
      StaysAbsent(t, reqs[1..], id);
    }
  }

  /** A deleted bear never comes back: after any later requests, looking it up answers 404. */
  lemma NoResurrection(s: Store, id: nat, reqs: seq<Request>)
    requires IdsIssued(s) && HasId(s.bears, id)
    ensures Get(Run(Delete(s, id).store, reqs), id).response == Response(NotFound, Text(NotFoundText))
  {
    StaysAbsent(Delete(s, id).store, reqs, id);
  }

  /** A created bear can be read back by its id, with the name it was given. */
  lemma GetAfterPost(s: Store, name: Option<string>)
    requires IdsIssued(s)
    ensures Get(Post(s, name).store, s.nextId).response == Response(Ok, BearJson(Bear(s.nextId, name)))
  {
  }

  /** After an update, reading the id gives the same id with the new name. */
  lemma GetAfterPut(s: Store, id: nat, name: Option<string>)
    requires HasId(s.bears, id)
    ensures Get(Put(s, id, name).store, id).response == Response(Ok, BearJson(Bear(id, name)))
  {
  }

  /**
    An update duplicates the record: the list grows by one and now holds at
    least two records with that id, all carrying the new name.
   */
  lemma PutDuplicates(s: Store, id: nat, name: Option<string>)
    requires HasId(s.bears, id)
    ensures |List(Put(s, id, name).store).response.body.bears| == |s.bears| + 1
    ensures Count(Put(s, id, name).store.bears, id) >= 2
    ensures forall i :: 0 <= i < |Put(s, id, name).store.bears| && Put(s, id, name).store.bears[i].id == id
              ==> Put(s, id, name).store.bears[i] == Bear(id, name)
  {
  }

  /** Deleting the same id twice leaves the same store and gives the same answer as deleting it once. */
  lemma DeleteIdempotent(s: Store, id: nat)
    ensures Delete(Delete(s, id).store, id) == Delete(s, id)
  {
    RemoveIdempotent(s.bears, id);
  }

  /** Deleting an id that was never there changes nothing and still reports success. */
  lemma DeleteAbsent(s: Store, id: nat)
    requires !HasId(s.bears, id)
    ensures Delete(s, id) == Reply(s, Response(Ok, Message(DeletedMessage)))
  {
    RemoveAbsent(s.bears, id);
  }

  /** Delete after an update removes the original and the copy the update pushed. */
  lemma DeleteAfterPut(s: Store, id: nat, name: Option<string>)
    requires HasId(s.bears, id)
    ensures Get(Delete(Put(s, id, name).store, id).store, id).response.status == NotFound
    ensures |Delete(Put(s, id, name).store, id).store.bears| == |s.bears| - Count(s.bears, id)
  {
  }

  /**
    The list length is not the number of creates minus the number of
    deletes: one create followed by one update already lists two bears.
   */
  lemma LengthIsNotCreatesMinusDeletes()
    ensures |Run(Empty, [CreateBear(Some("Yogi")), UpdateBear(1, Some("Yogi Bear"))]).bears| == 2
  {
    var s1 := Handle(Empty, CreateBear(Some("Yogi"))).store;
    assert s1.bears == [Bear(1, Some("Yogi"))];
    var s2 := Handle(s1, UpdateBear(1, Some("Yogi Bear"))).store;
    assert s1.bears[0].id == 1;
    assert |s2.bears| == 2;
    assert [CreateBear(Some("Yogi")), UpdateBear(1, Some("Yogi Bear"))][1..] == [UpdateBear(1, Some("Yogi Bear"))];
  }

  const Yogi := Bear(1, Some("Yogi"))
  const YogiBear := Bear(1, Some("Yogi Bear"))
  const BooBoo := Bear(2, Some("Boo-Boo"))

  /** A session, first part: two creates from start-up get ids 1 and 2, and the list shows both in order. */
  lemma SessionCreates()
    ensures Post(Empty, Yogi.name) == Reply(Store([Yogi], 2), Response(Ok, MessageAndBear(CreatedMessage, Yogi)))
    ensures Post(Store([Yogi], 2), BooBoo.name)
         == Reply(Store([Yogi, BooBoo], 3), Response(Ok, MessageAndBear(CreatedMessage, BooBoo)))
    ensures List(Store([Yogi, BooBoo], 3)).response == Response(Ok, BearList([Yogi, BooBoo]))
  {
    assert [] + [Yogi] == [Yogi];
    assert [Yogi] + [BooBoo] == [Yogi, BooBoo];
  }

  /** Second part: renaming bear 1 answers with the renamed bear and lists it twice. */
  lemma SessionUpdate()
    ensures Put(Store([Yogi, BooBoo], 3), 1, YogiBear.name)
         == Reply(Store([YogiBear, BooBoo, YogiBear], 3), Response(Ok, MessageAndBear(UpdatedMessage, YogiBear)))
  {
    var s := Store([Yogi, BooBoo], 3);
    assert s.bears[0].id == 1;
    var r := Put(s, 1, YogiBear.name);
    assert |r.store.bears| == 3;
    assert r.store.bears[0] == YogiBear && r.store.bears[1] == BooBoo && r.store.bears[2] == YogiBear;
  }

  /** Third part: deleting bear 2 reports success, and looking it up afterwards answers 404. */
  lemma SessionDelete()
    ensures Delete(Store([YogiBear, BooBoo, YogiBear], 3), 2)
         == Reply(Store([YogiBear, YogiBear], 3), Response(Ok, Message(DeletedMessage)))
    ensures Get(Store([YogiBear, YogiBear], 3), 2).response == Response(NotFound, Text(NotFoundText))
  {
    RemoveAppend([YogiBear, BooBoo], [YogiBear], 2);
    RemoveAppend([YogiBear], [BooBoo], 2);
    RemoveOne(YogiBear, 2);
    RemoveOne(BooBoo, 2);
    assert [YogiBear, BooBoo] == [YogiBear] + [BooBoo];
    assert [YogiBear, BooBoo, YogiBear] == [YogiBear, BooBoo] + [YogiBear];
    assert [YogiBear] + [YogiBear] == [YogiBear, YogiBear];
  }

  /** Handling the k-th request of a run moves the run on to the (k+1)-th. */
  lemma RunFrom(s: Store, reqs: seq<Request>, k: nat, t: Store)
    requires k < |reqs| && Handle(s, reqs[k]).store == t
    ensures Run(s, reqs[k..]) == Run(t, reqs[k + 1..])
  {
    assert reqs[k..][1..] == reqs[k + 1..];
  }

  /** The requests of the session, in order. */
  const Script: seq<Request> :=
    [CreateBear(Yogi.name), CreateBear(BooBoo.name), ListBears, UpdateBear(1, YogiBear.name), DeleteBear(2)]

  /** The run of the session after its two creates. */
  lemma SessionRunCreates()
    ensures Run(Empty, Script) == Run(Store([Yogi, BooBoo], 3), Script[2..])
  {
    SessionCreates();
    assert Script[0..] == Script;
    RunFrom(Empty, Script, 0, Store([Yogi], 2));
    RunFrom(Store([Yogi], 2), Script, 1, Store([Yogi, BooBoo], 3));
  }

  /** The run of the session after its list and update requests. */
  lemma SessionRunUpdate()
    ensures Run(Store([Yogi, BooBoo], 3), Script[2..]) == Run(Store([YogiBear, BooBoo, YogiBear], 3), Script[4..])
  {
    SessionUpdate();
    RunFrom(Store([Yogi, BooBoo], 3), Script, 2, Store([Yogi, BooBoo], 3));
    RunFrom(Store([Yogi, BooBoo], 3), Script, 3, Store([YogiBear, BooBoo, YogiBear], 3));
  }

  /** The run of the session after its delete request. */
  lemma SessionRunDelete()
    ensures Run(Store([YogiBear, BooBoo, YogiBear], 3), Script[4..]) == Store([YogiBear, YogiBear], 3)
  {
    SessionDelete();
    RunFrom(Store([YogiBear, BooBoo, YogiBear], 3), Script, 4, Store([YogiBear, YogiBear], 3));
    assert Script[5..] == [];
  }

  /** The whole session as one run from start-up: the parts above chain, leaving two copies of bear 1 and no bear 2. */
  lemma Session()
    ensures Run(Empty, Script) == Store([YogiBear, YogiBear], 3)
    ensures Get(Run(Empty, Script), 2).response == Response(NotFound, Text(NotFoundText))
  {
    SessionRunCreates();
    SessionRunUpdate();
    SessionRunDelete();
    SessionDelete();
  }
}
