/** Object naming in the bucket (getObjectPath): one prefix per kind of object. */
module ObjectKeys {

  type Content = string

  datatype Kind = Raw | RawArchived | Processed

  datatype Object = Object(kind: Kind, objectID: string)

  function Prefix(kind: Kind): string {
    match kind
    case Raw => "raw"
    case RawArchived => "raw-archived"
    case Processed => "processed"
  }

  function ObjectPath(o: Object): string {
    Prefix(o.kind) + "/" + o.objectID
  }

  /** Two objects share a path only if they are the same object, whatever characters the IDs
      contain; so the bucket can be read as a set of objects. */
  lemma ObjectPathInjective(a: Object, b: Object)
    requires ObjectPath(a) == ObjectPath(b)
    ensures a == b
  {
    var p, q := ObjectPath(a), ObjectPath(b);
    assert p[0] == Prefix(a.kind)[0] && q[0] == Prefix(b.kind)[0];
    assert p[3] == (Prefix(a.kind) + "/")[3] && q[3] == (Prefix(b.kind) + "/")[3];
    assert a.objectID == p[|Prefix(a.kind)| + 1..] && b.objectID == q[|Prefix(b.kind)| + 1..];
  }
}
