/**
  The routes mounted under `/api`: each handler maps the store and one
  request to the next store and the response sent. Bodies are kept as
  values; their JSON serialisation is not modelled.
 */
module Routes {
  import opened BearModel
  import opened MockStore

  /** A request after routing and body parsing; the `:bear_id` parameter is already a number. */
  datatype Request =
    | ApiRoot
    | ListBears
    | CreateBear(name: Option<string>)
    | GetBear(id: nat)
    | UpdateBear(id: nat, name: Option<string>)
    | DeleteBear(id: nat)

  /** What `res.json` or `res.send` is given. */
  datatype Body =
    | Text(text: string)
    | Message(message: string)
    | BearJson(bear: Bear)
    | BearList(bears: seq<Bear>)
    | MessageAndBear(message: string, bear: Bear)

  datatype Response = Response(status: nat, body: Body)

  /** The store after a request, and the response to it. */
  datatype Reply = Reply(store: Store, response: Response)

  const Ok: nat := 200
  const NotFound: nat := 404

  const ApiMessage := "API is working! Try /api/bears"
  const NotFoundText := "Bear not found"
  const CreatedMessage := "Bear created!"
  const UpdatedMessage := "Bear updated!"
  const DeletedMessage := "Bear deleted!"

  /** `GET /api`: a fixed greeting. */
  function Root(s: Store): (r: Reply)
    ensures r.store == s
    ensures r.response == Response(Ok, Message(ApiMessage))
  {
    Reply(s, Response(Ok, Message(ApiMessage)))
  }

  /** `POST /api/bears`: construct a bear with the given name, save it, answer with it. */
  function Post(s: Store, name: Option<string>): (r: Reply)
    ensures r.response.status == Ok
    ensures r.response.body.MessageAndBear? && r.response.body.message == CreatedMessage
    ensures r.response.body.bear == Bear(s.nextId, name)
    ensures r.store.nextId == s.nextId + 1
    ensures |r.store.bears| == |s.bears| + 1
    ensures r.store.bears[..|s.bears|] == s.bears
    ensures r.store.bears[|s.bears|] == r.response.body.bear
    ensures IdsIssued(s) ==> !HasId(s.bears, r.response.body.bear.id)
  {
    var (bear, s1) := Construct(s, name);
    Reply(Save(s1, bear), Response(Ok, MessageAndBear(CreatedMessage, bear)))
  }

  /** `GET /api/bears`: the whole list; this never fails and changes nothing. */
  function List(s: Store): (r: Reply)
    ensures r.store == s
    ensures r.response.status == Ok
    ensures r.response.body.BearList? && r.response.body.bears == s.bears
  {
    Reply(s, Response(Ok, BearList(Find(s))))
  }

  /** `GET /api/bears/:bear_id`: the first record with that id, or 404. */
  function Get(s: Store, id: nat): (r: Reply)
    ensures r.store == s
    ensures r.response.status == NotFound <==> !HasId(s.bears, id)
    ensures !HasId(s.bears, id) ==> r.response.body == Text(NotFoundText)
    ensures HasId(s.bears, id) ==>
      && r.response.status == Ok
      && r.response.body.BearJson?
      && exists i :: 0 <= i < |s.bears| && s.bears[i] == r.response.body.bear && s.bears[i].id == id
                     && forall j :: 0 <= j < i ==> s.bears[j].id != id
  {
    match FindById(s.bears, id)
    case None => Reply(s, Response(NotFound, Text(NotFoundText)))
    case Some(bear) => Reply(s, Response(Ok, BearJson(bear)))
  }

  /**
    Every record carrying `id` gets the new name. In the source these
    records are all one object, so assigning its `name` renames each of them.
   */
  function Rename(bs: seq<Bear>, id: nat, name: Option<string>): seq<Bear> {
    seq(|bs|, i requires 0 <= i < |bs| => if bs[i].id == id then Bear(id, name) else bs[i])
  }

  /**
    `PUT /api/bears/:bear_id`: 404 when absent; otherwise rename the record
    found and save it, which pushes it onto the list a second time.
   */
  function Put(s: Store, id: nat, name: Option<string>): (r: Reply)
    ensures !HasId(s.bears, id) ==> r.store == s && r.response == Response(NotFound, Text(NotFoundText))
    ensures HasId(s.bears, id) ==>
      && r.response == Response(Ok, MessageAndBear(UpdatedMessage, Bear(id, name)))
      && r.store.nextId == s.nextId
      && |r.store.bears| == |s.bears| + 1
      && r.store.bears[|s.bears|] == Bear(id, name)
      && (forall i :: 0 <= i < |s.bears| ==>
            r.store.bears[i].id == s.bears[i].id
            && (s.bears[i].id == id ==> r.store.bears[i].name == name)
            && (s.bears[i].id != id ==> r.store.bears[i] == s.bears[i]))
      && Count(r.store.bears, id) == Count(s.bears, id) + 1
  {
    match FindById(s.bears, id)
    case None => Reply(s, Response(NotFound, Text(NotFoundText)))
    case Some(bear) =>
      var updated := Bear(bear.id, name);
      var renamed := Rename(s.bears, id, name);
      assert Count(renamed, id) == Count(s.bears, id) by {
        RenameKeepsCount(s.bears, id, name);
      }
      Reply(Save(Store(renamed, s.nextId), updated), Response(Ok, MessageAndBear(UpdatedMessage, updated)))
  }

  lemma {:induction false} RenameKeepsCount(bs: seq<Bear>, id: nat, name: Option<string>)
    ensures Count(Rename(bs, id, name), id) == Count(bs, id)
    decreases |bs|
  {
    if |bs| != 0 {
      assert Rename(bs, id, name)[1..] == Rename(bs[1..], id, name);
      RenameKeepsCount(bs[1..], id, name);
    }
  }

  /** `DELETE /api/bears/:bear_id`: drop every record with the id and always report success. */
  function Delete(s: Store, id: nat): (r: Reply)
    ensures r.response == Response(Ok, Message(DeletedMessage))
    ensures r.store.nextId == s.nextId
    ensures !HasId(r.store.bears, id)
    ensures forall i :: 0 <= i < |s.bears| && s.bears[i].id != id ==> s.bears[i] in r.store.bears
    ensures |r.store.bears| == |s.bears| - Count(s.bears, id)
    ensures r.store.bears == Remove(s.bears, id)
  {
    Reply(Store(Remove(s.bears, id), s.nextId), Response(Ok, Message(DeletedMessage)))
  }

  /** The router: one request, one handler. Only a create moves the counter. */
  function Handle(s: Store, req: Request): (r: Reply)
    ensures r.store.nextId == s.nextId + (if req.CreateBear? then 1 else 0)
  {
    match req
    case ApiRoot => Root(s)
    case ListBears => List(s)
    case CreateBear(name) => Post(s, name)
    case GetBear(id) => Get(s, id)
    case UpdateBear(id, name) => Put(s, id, name)
    case DeleteBear(id) => Delete(s, id)
  }

  /** The store after a sequence of requests handled one after another. */
  function Run(s: Store, reqs: seq<Request>): Store
    decreases |reqs|
  {
    if |reqs| == 0 then s else Run(Handle(s, reqs[0]).store, reqs[1..])
  }
}
