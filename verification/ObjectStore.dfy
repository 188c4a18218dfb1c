/** Moving videos in and out of the bucket, with their content. */
module ObjectStore {
  import opened Jobs
  import opened ObjectKeys
  import opened RedisStore
  import opened Protocol

  type Objects = map<string, Content>

  function RawPath(id: ID): string {
    ObjectPath(Object(Raw, id))
  }

  function ArchivedPath(id: ID): string {
    ObjectPath(Object(RawArchived, id))
  }

  /** A server-side copy needs its source; the source is removed only after the copy. */
  function AfterArchive(objects: Objects, id: ID, copyOk: bool, removeOk: bool): Objects {
    if !copyOk || RawPath(id) !in objects then objects
    else
      var copied := objects[ArchivedPath(id) := objects[RawPath(id)]];
      if removeOk then copied - {RawPath(id)} else copied
  }

  class VideoStore {
    const maxBytes: nat
    var objects: Objects

    constructor (maxBytes: nat)
      ensures this.maxBytes == maxBytes && objects == map[]
    {
      this.maxBytes := maxBytes;
      objects := map[];
    }

    /** Missing and oversized objects are refused; `statOk` and `readOk` are the two requests. */
    method DownloadVideo(kind: Kind, id: ID, statOk: bool, readOk: bool) returns (content: Option<Content>)
      ensures var path := ObjectPath(Object(kind, id));
        content == if statOk && readOk && path in objects &&
            |objects[path]| <= maxBytes then Some(objects[path]) else None
    {
      var objectPath := ObjectPath(Object(kind, id));
      if !statOk || objectPath !in objects {
        return None;
      }
      if |objects[objectPath]| > maxBytes {
        return None;
      }
      if !readOk {
        return None;
      }
      content := Some(objects[objectPath]);
    }

    method UploadVideo(content: Content, kind: Kind, id: ID, putOk: bool) returns (ok: bool)
      modifies this
      ensures ok == putOk
      ensures objects == if ok then old(objects)[ObjectPath(Object(kind, id)) := content] else old(objects)
    {
      ok := putOk;
      if ok {
        objects := objects[ObjectPath(Object(kind, id)) := content];
      }
    }

    method ArchiveRawVideo(id: ID, copyOk: bool, removeOk: bool) returns (ok: bool)
      modifies this
      ensures objects == AfterArchive(old(objects), id, copyOk, removeOk)
      ensures ok <==> copyOk && removeOk && RawPath(id) in old(objects)
    {
      var srcPath, dstPath := RawPath(id), ArchivedPath(id);
      if !copyOk || srcPath !in objects {
        return false;
      }
      objects := objects[dstPath := objects[srcPath]];
      if !removeOk {
        return false;
      }
      objects := objects - {srcPath};
      ok := true;
    }
  }

  /** Whichever request fails, the source's bytes are in raw/ or in raw-archived/ afterwards; they
      have left raw/ only if the archive succeeded; and every other object is as it was. */
  lemma ArchiveKeepsBytes(objects: Objects, id: ID, copyOk: bool, removeOk: bool, other: Object)
    requires other != Object(Raw, id) && other != Object(RawArchived, id)
    ensures var q := AfterArchive(objects, id, copyOk, removeOk);
      && (RawPath(id) in objects ==>
            || (RawPath(id) in q && q[RawPath(id)] == objects[RawPath(id)])
            || (ArchivedPath(id) in q && q[ArchivedPath(id)] == objects[RawPath(id)]))
      && (RawPath(id) in objects && RawPath(id) !in q <==> copyOk && removeOk && RawPath(id) in objects)
      && (RawPath(id) !in objects ==> q == objects)
      && (ObjectPath(other) in q <==> ObjectPath(other) in objects)
      && (ObjectPath(other) in objects ==> q[ObjectPath(other)] == objects[ObjectPath(other)])
  {
    hide ObjectPath;
    Distinct(Object(Raw, id), Object(RawArchived, id));
    Distinct(other, Object(Raw, id));
    Distinct(other, Object(RawArchived, id));
  }

  lemma Distinct(a: Object, b: Object)
    ensures ObjectPath(a) == ObjectPath(b) <==> a == b
  {
    if ObjectPath(a) == ObjectPath(b) {
      ObjectPathInjective(a, b);
    }
  }

  /** Archiving again finds nothing to copy and does not disturb what was archived. */
  lemma ArchiveTwice(objects: Objects, id: ID, copyOk: bool, removeOk: bool)
    ensures var q := AfterArchive(objects, id, true, true);
      AfterArchive(q, id, copyOk, removeOk) == q
  {
  }

  /** The machine's bucket, under the keys the service uses. */
  ghost predicate Holds(s: State, objects: Objects) {
    forall o: Object ::
      && (o in s.objects <==> ObjectPath(o) in objects)
      && (o in s.objects ==> s.objects[o] == objects[ObjectPath(o)])
  }

  /** What a command of the machine does to the bucket. */
  function BucketAfter(objects: Objects, id: ID, c: Command): Objects {
    match c
    case PutProcessed(output) => objects[ObjectPath(Object(Processed, ProcessedId(id))) := output]
    case CopyRaw => if RawPath(id) in objects then objects[ArchivedPath(id) := objects[RawPath(id)]] else objects
    case DropRaw => objects - {RawPath(id)}
    case _ => objects
  }

  lemma BucketHolds(s: State, t: State, objects: Objects, id: ID, c: Command)
    requires Holds(s, objects) && t.objects == ObjectsAfter(s.objects, id, c)
    ensures Holds(t, BucketAfter(objects, id, c))
  {
    hide ObjectPath;
    var raw, archived, processed := Object(Raw, id), Object(RawArchived, id), Object(Processed, ProcessedId(id));
    forall o: Object
      ensures ObjectPath(o) == ObjectPath(raw) <==> o == raw
      ensures ObjectPath(o) == ObjectPath(archived) <==> o == archived
      ensures ObjectPath(o) == ObjectPath(processed) <==> o == processed
    {
      Distinct(o, raw);
      Distinct(o, archived);
      Distinct(o, processed);
    }
  }

  lemma HoldsRaw(s: State, objects: Objects, id: ID)
    requires Holds(s, objects)
    ensures ContentOf(s.objects, Object(Raw, id)) == RawOf(objects, id)
  {
    hide ObjectPath;
  }

  function RawOf(objects: Objects, id: ID): Option<Content> {
    if RawPath(id) in objects then Some(objects[RawPath(id)]) else None
  }
}
