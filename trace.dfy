/** A sequence of requests served one after another by the route table:
    GET /load-items goes to `loadItems`, POST /add-item to the validator
    and then `addItem`. The lemmas state what holds of the collection over
    any such sequence. */
module Trace {
  import opened JsonValue
  import opened ItemSchema
  import opened Validator
  import opened Handlers

  /** One request, together with how the database calls it makes end. */
  datatype Request = GetItems(call: StoreCall) | PostItem(body: Body, call: StoreCall)

  /** The route table: which handler chain a request reaches. */
  function Serve(s: StoreState, req: Request): (r: (StoreState, Response))
    ensures req.GetItems? ==> r.0 == s
    ensures r.1.status == 201 <==> req.PostItem? && Validate(req.body) == Pass && req.call.Completes?
  {
    match req
    case GetItems(call) => (s, Load(s, call))
    case PostItem(body, call) => Create(s, body, call)
  }

  /** Serving the requests in order: the final collection and every answer. */
  function Run(s: StoreState, reqs: seq<Request>): (r: (StoreState, seq<Response>))
    ensures |r.1| == |reqs|
    decreases |reqs|
  {
    if reqs == [] then (s, [])
    else
      var (s1, resp) := Serve(s, reqs[0]);
      var (s2, resps) := Run(s1, reqs[1..]);
      (s2, [resp] + resps)
  }

  /** The number of 201 answers. */
  function Created(resps: seq<Response>): nat
  {
    if resps == [] then 0
    else (if resps[0].status == 201 then 1 else 0) + Created(resps[1..])
  }

  /** One served request keeps the collection's invariant. */
  lemma ServeKeepsInv(s: StoreState, req: Request)
    requires Inv(s)
    ensures Inv(Serve(s, req).0)
  {
  }

  /** No sequence of requests breaks the invariant: every stored document
      conforms to the schema and identifiers are unique and increasing. */
  lemma {:induction false} RunKeepsInv(s: StoreState, reqs: seq<Request>)
    requires Inv(s)
    ensures Inv(Run(s, reqs).0)
    decreases |reqs|
  {
    if reqs != [] {
      ServeKeepsInv(s, reqs[0]);
      RunKeepsInv(Serve(s, reqs[0]).0, reqs[1..]);
    }
  }

  /** Documents are never changed or removed: the old collection is a
      prefix of the new one, and identifiers only move forward. */
  lemma {:induction false} RunAppendOnly(s: StoreState, reqs: seq<Request>)
    ensures |s.items| <= |Run(s, reqs).0.items|
    ensures Run(s, reqs).0.items[..|s.items|] == s.items
    ensures s.nextId <= Run(s, reqs).0.nextId
    decreases |reqs|
  {
    if reqs != [] {
      var s1 := Serve(s, reqs[0]).0;
      RunAppendOnly(s1, reqs[1..]);
      var fin := Run(s1, reqs[1..]).0;
      assert s1.items[..|s.items|] == s.items;
      assert fin.items[..|s.items|] == fin.items[..|s1.items|][..|s.items|];
    }
  }

  /** Each 201 answer adds exactly one document and nothing else adds one. */
  lemma {:induction false} RunCountsCreated(s: StoreState, reqs: seq<Request>)
    ensures |Run(s, reqs).0.items| == |s.items| + Created(Run(s, reqs).1)
    decreases |reqs|
  {
    if reqs != [] {
      RunCountsCreated(Serve(s, reqs[0]).0, reqs[1..]);
    }
  }

  /** Requests the validator rejects, and reads, leave the collection and
      the identifier counter as they were. */
  lemma {:induction false} RejectedRunChangesNothing(s: StoreState, reqs: seq<Request>)
    requires forall k :: 0 <= k < |reqs| ==> reqs[k].GetItems? || Validate(reqs[k].body).Reject?
    ensures Run(s, reqs).0 == s
    decreases |reqs|
  {
    if reqs != [] {
      RejectedRunChangesNothing(Serve(s, reqs[0]).0, reqs[1..]);
    }
  }

  /** A document answered with 201 is in the collection from then on. */
  lemma {:induction false} CreatedStaysStored(s: StoreState, reqs: seq<Request>, k: nat)
    requires k < |reqs|
    requires Run(s, reqs).1[k].status == 201
    ensures Run(s, reqs).1[k].payload.Stored?
    ensures Run(s, reqs).1[k].payload.item in Run(s, reqs).0.items
    decreases |reqs|
  {
    var s1 := Serve(s, reqs[0]).0;
    RunAppendOnly(s1, reqs[1..]);
    if k == 0 {
      var item := Serve(s, reqs[0]).1.payload.item;
      assert s1.items[|s1.items| - 1] == item;
      assert Run(s1, reqs[1..]).0.items[|s1.items| - 1] == item;
    } else {
      CreatedStaysStored(s1, reqs[1..], k - 1);
    }
  }

  /** End to end: after a successful POST, a GET whose query completes lists
      the document that was answered, with the submitted values. */
  lemma PostThenGet(s: StoreState, body: Body)
    requires Validate(body) == Pass
    ensures Run(s, [PostItem(body, Completes), GetItems(Completes)]).1[0].status == 201
    ensures Run(s, [PostItem(body, Completes), GetItems(Completes)]).1[0].payload.Stored?
    ensures var rs := Run(s, [PostItem(body, Completes), GetItems(Completes)]).1;
            && rs[1].status == 200
            && rs[1].payload.ItemList?
            && rs[0].payload.item in rs[1].payload.items
            && forall f: Field :: Get(body, Key(f)) == Num(At(rs[0].payload.item, f))
  {
  }

  /** Reading an empty collection answers an empty list, not an error. */
  lemma EmptyLoad(call: StoreCall)
    requires call.Completes?
    ensures Load(StoreState([], 0), call) == Response(200, ItemList([]))
  {
  }
}
