/** The two route handlers, `loadItems` and `addItem`, and the composed
    POST route `validateItemInput` then `addItem`, over the `Item`
    collection. The database is reduced to its contents and the identifier
    the next `new Item(...)` receives; whether a database call throws is a
    parameter. */
module Handlers {
  import opened JsonValue
  import opened ItemSchema
  import opened Validator

  /** How one awaited database call ends: it completes, or it throws an
      error carrying a message. */
  datatype StoreCall = Completes | Throws(error: string)

  /** The `error` member of a 500 answer: the driver's error, or the
      validation error mongoose raises on `save()` for the failing paths. */
  datatype ErrorDetail = StoreError(text: string) | SchemaError(paths: seq<Field>)

  /** The JSON body of an answer. */
  datatype Payload =
    | ItemList(items: seq<Item>)
    | Stored(item: Item)
    | Notice(message: string)
    | Failure(message: string, error: ErrorDetail)

  datatype Response = Response(status: nat, payload: Payload)

  /** The collection's documents in the order `find()` returns them, and
      the identifier the next constructed document gets. */
  datatype StoreState = StoreState(items: seq<Item>, nextId: nat)

  const LoadFailed: string := "Failed to load items"
  const AddFailed: string := "Failed to add item"

  /** What the collection promises about its documents: every one conforms
      to the schema, identifiers strictly increase in insertion order, and
      every identifier was handed out before `nextId`. */
  ghost predicate Inv(s: StoreState)
  {
    && (forall i :: 0 <= i < |s.items| ==> Conforms(s.items[i]) && s.items[i].id < s.nextId)
    && (forall i, j :: 0 <= i < j < |s.items| ==> s.items[i].id < s.items[j].id)
  }

  /** Under Inv no two stored documents share an identifier. */
  lemma InvIdsUnique(s: StoreState, i: int, j: int)
    requires Inv(s)
    requires 0 <= i < |s.items| && 0 <= j < |s.items| && i != j
    ensures s.items[i].id != s.items[j].id
  {
  }

  /** GET /load-items: `Item.find()` then `res.json(items)`, which answers
      with the default status 200. */
  function Load(s: StoreState, call: StoreCall): (r: Response)
    ensures r.status == 200 <==> call.Completes?
    ensures r.status == 200 ==> r.payload == ItemList(s.items)
    ensures r.status != 200 ==> r.status == 500 && r.payload == Failure(LoadFailed, StoreError(call.error))
  {
    match call
    case Completes => Response(200, ItemList(s.items))
    case Throws(e) => Response(500, Failure(LoadFailed, StoreError(e)))
  }

  /** `addItem` on its own: `new Item(req.body)` takes the next identifier,
      then `save()` validates the schema paths and writes through the
      driver. A success answers 201 with the saved document; any error
      answers 500 and writes nothing. */
  function Add(s: StoreState, body: Body, call: StoreCall): (r: (StoreState, Response))
    ensures r.0.nextId == s.nextId + 1
    ensures r.1.status == 201 || r.1.status == 500
    ensures r.1.status == 201 <==> Violations(body) == [] && call.Completes?
    ensures r.1.status == 201 ==>
              && r.1.payload.Stored?
              && r.0.items == s.items + [r.1.payload.item]
              && r.1.payload.item.id == s.nextId
              && (forall f: Field :: Get(body, Key(f)) == Num(At(r.1.payload.item, f)))
    ensures r.1.status == 500 ==> r.0.items == s.items && r.1.payload.Failure? && r.1.payload.message == AddFailed
    ensures Violations(body) != [] ==> r.1.payload == Failure(AddFailed, SchemaError(Violations(body)))
    ensures Violations(body) == [] && call.Throws? ==> r.1.payload == Failure(AddFailed, StoreError(call.error))
  {
    var next := s.nextId + 1;
    var vs := Violations(body);
    if vs != [] then
      (StoreState(s.items, next), Response(500, Failure(AddFailed, SchemaError(vs))))
    else if call.Throws? then
      (StoreState(s.items, next), Response(500, Failure(AddFailed, StoreError(call.error))))
    else
      var item := ToItem(s.nextId, body);
      (StoreState(s.items + [item], next), Response(201, Stored(item)))
  }

  /** POST /add-item: the validator runs first and answers 400 on a bad
      field without reaching `addItem`; otherwise `addItem` runs. On the
      three declared keys the schema never rejects through this route, so
      within the model a 500 comes from the driver. */
  function Create(s: StoreState, body: Body, call: StoreCall): (r: (StoreState, Response))
    ensures r.1.status in {201, 400, 500}
    ensures r.1.status == 400 <==> Validate(body).Reject?
    ensures r.1.status == 400 ==> r.0 == s && r.1.payload == Notice(Message(Validate(body).field))
    ensures r.1.status == 201 <==> Validate(body) == Pass && call.Completes?
    ensures r.1.status == 201 ==>
              && r.1.payload.Stored?
              && r.0 == StoreState(s.items + [r.1.payload.item], s.nextId + 1)
              && r.1.payload.item.id == s.nextId
              && (forall f: Field :: Get(body, Key(f)) == Num(At(r.1.payload.item, f)))
    ensures r.1.status == 500 ==>
              && r.0 == StoreState(s.items, s.nextId + 1)
              && r.1.payload == Failure(AddFailed, StoreError(call.error))
  {
    match Validate(body)
    case Reject(f) => (s, Response(400, Notice(Message(f))))
    case Pass =>
      ValidatorAgreesWithSchema(body);
      Add(s, body, call)
  }

  /** The first failing field wins on the route: a body whose altitude and
      HIS are both out of range is answered 400 for the altitude, and the
      store is left as it was. */
  lemma FirstFailureWins(s: StoreState, call: StoreCall)
    ensures var body := map["altitude" := Num(5000.0), "HIS" := Num(999.0), "ADI" := Num(0.0)];
            && Create(s, body, call).1 == Response(400, Notice("Invalid altitude value"))
            && Create(s, body, call).0 == s
  {
  }

  /** The `Item` collection as the server process sees it. */
  class Store {
    var items: seq<Item>
    var nextId: nat

    function State(): StoreState
      reads this
    {
      StoreState(items, nextId)
    }

    ghost predicate Valid()
      reads this
    {
      Inv(State())
    }

    /** An empty collection. */
    constructor ()
      ensures Valid()
      ensures items == [] && nextId == 0
    {
      items := [];
      nextId := 0;
    }

    /** `loadItems`: answers with every stored document, or 500 when the
        driver throws. Reads the collection and changes nothing. */
    method LoadItems(call: StoreCall) returns (resp: Response)
      ensures call.Completes? ==> resp == Response(200, ItemList(items))
      ensures call.Throws? ==> resp == Response(500, Failure(LoadFailed, StoreError(call.error)))
      ensures resp == Load(State(), call)
    {
      if call.Throws? {
        resp := Response(500, Failure(LoadFailed, StoreError(call.error)));
        return;
      }
      resp := Response(200, ItemList(items));
    }

    /** `addItem`: constructs the document (taking an identifier), then saves
        it; only a save that passes the schema and completes appends it. */
    method AddItem(body: Body, call: StoreCall) returns (resp: Response)
      requires Valid()
      modifies this
      ensures Valid()
      ensures nextId == old(nextId) + 1
      ensures resp.status == 201 ==> resp.payload.Stored? && items == old(items) + [resp.payload.item]
      ensures resp.status != 201 ==> items == old(items)
      ensures (State(), resp) == Add(old(State()), body, call)
    {
      var id := nextId;
      nextId := nextId + 1;
      var vs := Violations(body);
      if vs != [] {
        resp := Response(500, Failure(AddFailed, SchemaError(vs)));
        return;
      }
      if call.Throws? {
        resp := Response(500, Failure(AddFailed, StoreError(call.error)));
        return;
      }
      var item := ToItem(id, body);
      items := items + [item];
      resp := Response(201, Stored(item));
    }

    /** The POST /add-item route: `validateItemInput`, then `addItem` only
        when the validator calls `next()`. */
    method PostAddItem(body: Body, call: StoreCall) returns (resp: Response)
      requires Valid()
      modifies this
      ensures Valid()
      ensures Validate(body).Reject? ==>
                resp == Response(400, Notice(Message(Validate(body).field)))
                && items == old(items) && nextId == old(nextId)
      ensures (State(), resp) == Create(old(State()), body, call)
    {
      var verdict := Validate(body);
      if verdict.Reject? {
        resp := Response(400, Notice(Message(verdict.field)));
        return;
      }
      resp := AddItem(body, call);
    }
  }
}
