/** The `Item` model: the three schema paths with their bounds, the stored
    document, and the validation mongoose runs on `save()`. */
module ItemSchema {
  import opened JsonValue

  /** The three schema paths, in declaration order. */
  datatype Field = Altitude | HIS | ADI

  /** The property name of a path in the request body and in the document. */
  function Key(f: Field): string
  {
    match f
    case Altitude => "altitude"
    case HIS => "HIS"
    case ADI => "ADI"
  }

  /** The schema's `min` for a path. */
  function Min(f: Field): real
  {
    match f
    case Altitude => 0.0
    case HIS => 0.0
    case ADI => -100.0
  }

  /** The schema's `max` for a path. */
  function Max(f: Field): real
  {
    match f
    case Altitude => 3000.0
    case HIS => 360.0
    case ADI => 100.0
  }

  /** A stored document: the identifier the model assigns plus the three readings. */
  datatype Item = Item(id: nat, altitude: real, his: real, adi: real)

  /** The value a document holds at a path. */
  function At(item: Item, f: Field): real
  {
    match f
    case Altitude => item.altitude
    case HIS => item.his
    case ADI => item.adi
  }

  /** A document respects every `min`/`max` of the schema. */
  predicate Conforms(item: Item)
  {
    forall f: Field :: Min(f) <= At(item, f) <= Max(f)
  }

  /** One path's validators: `type: Number`, `required: true`, `min`, `max`. */
  predicate PathAdmits(f: Field, v: Value)
  {
    v.Num? && Min(f) <= v.r <= Max(f)
  }

  /** The paths that fail validation on `save()`. Mongoose reports all
      failures together; the model lists them in declaration order, which
      is its own convention, not the order mongoose records them in. */
  function Violations(body: Body): (vs: seq<Field>)
    ensures forall f: Field :: f in vs <==> !PathAdmits(f, Get(body, Key(f)))
    ensures |vs| <= 3
    ensures forall i, j :: 0 <= i < j < |vs| ==> vs[i] != vs[j]
  {
    (if PathAdmits(Altitude, Get(body, Key(Altitude))) then [] else [Altitude])
    + (if PathAdmits(HIS, Get(body, Key(HIS))) then [] else [HIS])
    + (if PathAdmits(ADI, Get(body, Key(ADI))) then [] else [ADI])
  }

  /** `new Item(req.body)` for a body that passes the schema: the three
      values are copied unchanged and properties outside the schema are
      dropped. */
  function ToItem(id: nat, body: Body): (item: Item)
    requires Violations(body) == []
    ensures item.id == id
    ensures forall f: Field :: Get(body, Key(f)) == Num(At(item, f))
    ensures Conforms(item)
  {
    assert PathAdmits(Altitude, Get(body, Key(Altitude)));
    assert PathAdmits(HIS, Get(body, Key(HIS)));
    assert PathAdmits(ADI, Get(body, Key(ADI)));
    Item(id, Get(body, "altitude").r, Get(body, "HIS").r, Get(body, "ADI").r)
  }
}
