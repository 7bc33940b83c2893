/** The eight fields of a camera, and the field-level three-way merge of an imported patch. */
module Merge {
  import opened Prelude

  datatype Field = Code | CameraName | IntersectionId | Manufacturer | CameraModel | IpAddress | CameraStatus | Properties

  datatype Payload = Payload(
    code: Value, name: Value, intersectionId: Value, manufacturer: Value,
    cameraModel: Value, ipAddress: Value, status: Value, properties: Value)

  /** The order in which a payload lists its fields. */
  const FIELDS: seq<Field> :=
    [Code, CameraName, IntersectionId, Manufacturer, CameraModel, IpAddress, CameraStatus, Properties]

  function At(p: Payload, f: Field): Value {
    match f
    case Code => p.code
    case CameraName => p.name
    case IntersectionId => p.intersectionId
    case Manufacturer => p.manufacturer
    case CameraModel => p.cameraModel
    case IpAddress => p.ipAddress
    case CameraStatus => p.status
    case Properties => p.properties
  }

  function Put(p: Payload, f: Field, v: Value): (r: Payload)
    ensures At(r, f) == v
    ensures forall g :: g != f ==> At(r, g) == At(p, g)
  {
    match f
    case Code => p.(code := v)
    case CameraName => p.(name := v)
    case IntersectionId => p.(intersectionId := v)
    case Manufacturer => p.(manufacturer := v)
    case CameraModel => p.(cameraModel := v)
    case IpAddress => p.(ipAddress := v)
    case CameraStatus => p.(status := v)
    case Properties => p.(properties := v)
  }

  lemma SameFieldsSamePayload(p: Payload, q: Payload)
    requires forall f :: At(p, f) == At(q, f)
    ensures p == q
  {
    assert At(p, Code) == At(q, Code) && At(p, CameraName) == At(q, CameraName);
    assert At(p, IntersectionId) == At(q, IntersectionId) && At(p, Manufacturer) == At(q, Manufacturer);
    assert At(p, CameraModel) == At(q, CameraModel) && At(p, IpAddress) == At(q, IpAddress);
    assert At(p, CameraStatus) == At(q, CameraStatus) && At(p, Properties) == At(q, Properties);
  }

  /** The base of a new entity is empty: it has no value for any field. */
  function BaseAt(base: Option<Payload>, f: Field): Value {
    if base.Some? then At(base.value, f) else Null
  }

  datatype FieldConflict = FieldConflict(field: Field, base: Value, server: Value, local: Value)

  /** Both sides changed the field, and to different values. */
  ghost predicate BothChanged(base: Option<Payload>, server: Payload, client: Payload, f: Field) {
    At(server, f) != BaseAt(base, f) && At(client, f) != BaseAt(base, f) && At(client, f) != At(server, f)
  }

  /** What a merge without conflicts holds at a field: the changed side's value, or the common one. */
  ghost predicate KeepsEachChange(base: Option<Payload>, server: Payload, client: Payload, merged: Payload, f: Field) {
    && (At(server, f) == BaseAt(base, f) ==> At(merged, f) == At(client, f))
    && (At(client, f) == BaseAt(base, f) ==> At(merged, f) == At(server, f))
    && (At(client, f) == At(server, f) ==> At(merged, f) == At(server, f))
  }

  /** One field of the merge: the patch wins where the server still has the base, else the server stays, noting a clash. */
  function MergeField(base: Option<Payload>, server: Payload, client: Payload, merged: Payload, conflicts: seq<FieldConflict>, f: Field)
    : (Payload, seq<FieldConflict>)
  {
    var (b, s, c) := (BaseAt(base, f), At(server, f), At(client, f));
    if s == b then (Put(merged, f, c), conflicts)
    else if c != b && c != s then (merged, conflicts + [FieldConflict(f, b, s, c)])
    else (merged, conflicts)
  }

  function MergeFields(base: Option<Payload>, server: Payload, client: Payload, fields: seq<Field>): (Payload, seq<FieldConflict>) {
    if fields == [] then (server, [])
    else
      var last := |fields| - 1;
      var (merged, conflicts) := MergeFields(base, server, client, fields[..last]);
      MergeField(base, server, client, merged, conflicts, fields[last])
  }

  function MergePayload(base: Option<Payload>, server: Payload, client: Payload): (Payload, seq<FieldConflict>) {
    MergeFields(base, server, client, FIELDS)
  }

  lemma {:induction false} MergeFieldsAt(base: Option<Payload>, server: Payload, client: Payload, fields: seq<Field>, f: Field)
    ensures var (merged, conflicts) := MergeFields(base, server, client, fields);
            && At(merged, f) == (if f in fields && At(server, f) == BaseAt(base, f) then At(client, f) else At(server, f))
            && ((exists c :: c in conflicts && c.field == f) <==> f in fields && BothChanged(base, server, client, f))
            && (forall c :: c in conflicts && c.field == f ==>
                  c == FieldConflict(f, BaseAt(base, f), At(server, f), At(client, f)))
  {
    if fields == [] {
    } else {
      var last := |fields| - 1;
      MergeFieldsAt(base, server, client, fields[..last], f);
      assert fields == fields[..last] + [fields[last]];
      var conflicts := MergeFields(base, server, client, fields[..last]).1;
      var clash := FieldConflict(f, BaseAt(base, f), At(server, f), At(client, f));
      assert clash in conflicts + [clash];
      assert forall c, d :: c in conflicts + [d] <==> c in conflicts || c == d;
    }
  }

  lemma AllFieldsListed(f: Field)
    ensures f in FIELDS
  {
    assert FIELDS[0] == Code && FIELDS[1] == CameraName && FIELDS[2] == IntersectionId && FIELDS[3] == Manufacturer;
    assert FIELDS[4] == CameraModel && FIELDS[5] == IpAddress && FIELDS[6] == CameraStatus && FIELDS[7] == Properties;
  }

  /** Conflicts are exactly the fields both sides changed differently; without any, each change is kept. */
  lemma MergeIsExact(base: Option<Payload>, server: Payload, client: Payload)
    ensures var (merged, conflicts) := MergePayload(base, server, client);
            && (forall f :: (exists c :: c in conflicts && c.field == f) <==> BothChanged(base, server, client, f))
            && (conflicts == [] ==> forall f :: KeepsEachChange(base, server, client, merged, f))
  {
    var (merged, conflicts) := MergePayload(base, server, client);
    forall f
      ensures (exists c :: c in conflicts && c.field == f) <==> BothChanged(base, server, client, f)
      ensures conflicts == [] ==> KeepsEachChange(base, server, client, merged, f)
    {
      AllFieldsListed(f);
      MergeFieldsAt(base, server, client, FIELDS, f);
    }
  }

  lemma NoConflictIff(base: Option<Payload>, server: Payload, client: Payload)
    ensures MergePayload(base, server, client).1 == [] <==> forall f :: !BothChanged(base, server, client, f)
  {
    MergeIsExact(base, server, client);
    var conflicts := MergePayload(base, server, client).1;
    if conflicts != [] {
      assert conflicts[0] in conflicts;
      assert BothChanged(base, server, client, conflicts[0].field);
    }
  }

  /** Which side is called server does not matter: the same fields clash, and without clashes the results are equal. */
  lemma MergeIsSymmetric(base: Option<Payload>, a: Payload, b: Payload)
    ensures MergePayload(base, a, b).1 == [] <==> MergePayload(base, b, a).1 == []
    ensures MergePayload(base, a, b).1 == [] ==> MergePayload(base, a, b).0 == MergePayload(base, b, a).0
  {
    NoConflictIff(base, a, b);
    NoConflictIff(base, b, a);
    assert forall f :: BothChanged(base, a, b, f) <==> BothChanged(base, b, a, f);
    if MergePayload(base, a, b).1 == [] {
      MergeIsExact(base, a, b);
      MergeIsExact(base, b, a);
      var p, q := MergePayload(base, a, b).0, MergePayload(base, b, a).0;
      forall f ensures At(p, f) == At(q, f) {
        assert KeepsEachChange(base, a, b, p, f) && KeepsEachChange(base, b, a, q, f) && !BothChanged(base, a, b, f);
      }
      SameFieldsSamePayload(p, q);
    }
  }

  /** Against an unchanged server the merge is the patch itself. */
  lemma MergeWithUnchangedServer(server: Payload, client: Payload)
    ensures MergePayload(Some(server), server, client) == (client, [])
  {
    NoConflictIff(Some(server), server, client);
    MergeIsExact(Some(server), server, client);
    var merged := MergePayload(Some(server), server, client).0;
    forall f ensures At(merged, f) == At(client, f) {
      assert !BothChanged(Some(server), server, client, f) && KeepsEachChange(Some(server), server, client, merged, f);
    }
    SameFieldsSamePayload(merged, client);
  }
}
