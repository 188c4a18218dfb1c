/** Uploading a directory tree: which objects appear under which keys. */
module DirectoryUpload {
  import opened Jobs
  import opened Text
  import opened ObjectKeys

  datatype Node = File(content: Content) | Dir(entries: seq<Entry>)

  datatype Entry = Entry(name: string, node: Node)

  datatype Placed = Placed(key: string, content: Content)

  /* ---- what is uploaded, in depth-first order ---- */

  function EntryUploads(prefix: string, e: Entry): seq<Placed>
    decreases e, 0
  {
    match e.node
    case File(content) => [Placed(prefix + "/" + e.name, content)]
    case Dir(inner) => Uploads(prefix + "/" + e.name, inner)
  }

  function Uploads(prefix: string, entries: seq<Entry>): seq<Placed>
    decreases entries, 1
  {
    if |entries| == 0 then []
    else EntryUploads(prefix, entries[0]) + Uploads(prefix, entries[1..])
  }

  function Put(objects: map<string, Content>, uploads: seq<Placed>): map<string, Content>
    decreases |uploads|
  {
    if |uploads| == 0 then objects
    else
      var n := |uploads| - 1;
      Put(objects, uploads[..n])[uploads[n].key := uploads[n].content]
  }

  /** The bucket and its log have taken in exactly the uploads `done`, in this order. */
  predicate Grown(logBefore: seq<Placed>, before: map<string, Content>, log: seq<Placed>, after: map<string, Content>,
                  done: seq<Placed>)
  {
    log == logBefore + done && after == Put(before, done)
  }

  /** The object store, and the local disk's answers: whether the n-th read or upload succeeds. */
  class Bucket {
    const succeeds: nat -> bool
    var objects: map<string, Content>
    var uploads: seq<Placed>
    var calls: nat

    constructor (succeeds: nat -> bool)
      ensures this.succeeds == succeeds && objects == map[] && uploads == [] && calls == 0
    {
      this.succeeds := succeeds;
      objects, uploads, calls := map[], [], 0;
    }

    method ReadDir() returns (ok: bool)
      modifies this`calls
      ensures calls == old(calls) + 1 && ok == succeeds(old(calls))
    {
      ok := succeeds(calls);
      calls := calls + 1;
    }

    method UploadFile(key: string, content: Content) returns (ok: bool)
      modifies this
      ensures calls == old(calls) + 1 && ok == succeeds(old(calls))
      ensures uploads == old(uploads) + if ok then [Placed(key, content)] else []
      ensures objects == if ok then old(objects)[key := content] else old(objects)
    {
      ok := succeeds(calls);
      calls := calls + 1;
      if ok {
        uploads := uploads + [Placed(key, content)];
        objects := objects[key := content];
      }
    }

    /** A file is uploaded, a directory with everything in it. */
    method UploadEntry(entry: Entry, prefix: string) returns (ok: bool, ghost done: seq<Placed>)
      modifies this
      ensures calls > old(calls)
      ensures ok <==> forall k :: old(calls) <= k < calls ==> succeeds(k)
      ensures !ok ==> !succeeds(calls - 1) && forall k :: old(calls) <= k < calls - 1 ==> succeeds(k)
      ensures done <= EntryUploads(prefix, entry) && (ok ==> done == EntryUploads(prefix, entry))
      ensures Grown(old(uploads), old(objects), uploads, objects, done)
      decreases entry
    {
      hide Uploads, EntryUploads, Put;
      var objectPath := prefix + "/" + entry.name;
      match entry.node {
        case Dir(inner) =>
          EntryOfDir(prefix, entry);
          ok, done := UploadDirectory(inner, objectPath);
        case File(content) =>
          EntryOfFile(prefix, entry);
          PutFile(objects, objectPath, content);
          PutNothing(objects);
          ok := UploadFile(objectPath, content);
          done := if ok then [Placed(objectPath, content)] else [];
      }
    }

    /** Everything is stored, or a call failed and a prefix of the depth-first order is. */
    method UploadDirectory(entries: seq<Entry>, prefix: string) returns (ok: bool, ghost done: seq<Placed>)
      modifies this
      ensures calls > old(calls)
      ensures ok <==> forall k :: old(calls) <= k < calls ==> succeeds(k)
      ensures !ok ==> !succeeds(calls - 1) && forall k :: old(calls) <= k < calls - 1 ==> succeeds(k)
      ensures done <= Uploads(prefix, entries) && (ok ==> done == Uploads(prefix, entries))
      ensures Grown(old(uploads), old(objects), uploads, objects, done)
      decreases entries
    {
      hide Uploads, EntryUploads, Grown;
      done := [];
      ok := ReadDir();
      GrownByNothing(uploads, objects);
      if !ok {
        return;
      }
      var i := 0;
      NothingLeft(prefix, entries);
      while i < |entries|
        invariant 0 <= i <= |entries|
        invariant calls > old(calls)
        invariant forall k :: old(calls) <= k < calls ==> succeeds(k)
        invariant done + Uploads(prefix, entries[i..]) == Uploads(prefix, entries)
        invariant Grown(old(uploads), old(objects), uploads, objects, done)
      {
        ghost var more: seq<Placed>;
        ghost var before, stored := uploads, objects;
        ok, more := UploadEntry(entries[i], prefix);
        GrownFurther(old(uploads), old(objects), before, stored, uploads, objects, done, more);
        OneMore(prefix, entries, i, done, more);
        done := done + more;
        if !ok {
          return;
        }
        i := i + 1;
      }
    }
  }

  lemma GrownByNothing(uploads: seq<Placed>, objects: map<string, Content>)
    ensures Grown(uploads, objects, uploads, objects, [])
  {
    PutNothing(objects);
  }

  lemma GrownFurther(u0: seq<Placed>, o0: map<string, Content>, u1: seq<Placed>, o1: map<string, Content>,
                     u2: seq<Placed>, o2: map<string, Content>, done: seq<Placed>, more: seq<Placed>)
    requires Grown(u0, o0, u1, o1, done) && Grown(u1, o1, u2, o2, more)
    ensures Grown(u0, o0, u2, o2, done + more)
  {
    hide Put;
    PutJoin(o0, done, more);
    assert u0 + done + more == u0 + (done + more);
  }

  lemma NothingLeft(prefix: string, entries: seq<Entry>)
    ensures entries[0..] == entries
    ensures Uploads(prefix, entries[|entries|..]) == []
  {
  }

  lemma OneMore(prefix: string, entries: seq<Entry>, i: nat, done: seq<Placed>, more: seq<Placed>)
    requires i < |entries| && more <= EntryUploads(prefix, entries[i])
    requires done + Uploads(prefix, entries[i..]) == Uploads(prefix, entries)
    ensures done + more <= Uploads(prefix, entries)
    ensures more == EntryUploads(prefix, entries[i]) ==>
              done + more + Uploads(prefix, entries[i + 1..]) == Uploads(prefix, entries)
  {
    var whole, rest := EntryUploads(prefix, entries[i]), Uploads(prefix, entries[i + 1..]);
    assert entries[i..][0] == entries[i] && entries[i..][1..] == entries[i + 1..];
    assert Uploads(prefix, entries[i..]) == whole + rest;
    hide Uploads, EntryUploads;
    assert done + (whole + rest) == done + whole + rest;
  }

  lemma EntryOfDir(prefix: string, e: Entry)
    requires e.node.Dir?
    ensures EntryUploads(prefix, e) == Uploads(prefix + "/" + e.name, e.node.entries)
  {
  }

  lemma EntryOfFile(prefix: string, e: Entry)
    requires e.node.File?
    ensures EntryUploads(prefix, e) == [Placed(prefix + "/" + e.name, e.node.content)]
  {
  }

  lemma PutNothing(objects: map<string, Content>)
    ensures Put(objects, []) == objects
  {
  }

  lemma PutFile(objects: map<string, Content>, key: string, content: Content)
    ensures Put(objects, [Placed(key, content)]) == objects[key := content]
  {
    assert |[Placed(key, content)][..0]| == 0;
  }

  lemma {:induction false} PutJoin(objects: map<string, Content>, a: seq<Placed>, b: seq<Placed>)
    ensures Put(objects, a + b) == Put(Put(objects, a), b)
    decreases |b|
  {
    if |b| == 0 {
      assert a + b == a;
    } else {
      var n := |b| - 1;
      PutJoin(objects, a, b[..n]);
      var all := a + b;
      assert |all| - 1 == |a| + n && all[..|a| + n] == a + b[..n] && all[|a| + n] == b[n];
    }
  }

  /* ---- what the tree holds ---- */

  /** The file at a path, walking down one directory per component. */
  function Lookup(entries: seq<Entry>, path: seq<string>): Option<Content>
    decreases entries
  {
    if |entries| == 0 || |path| == 0 then None
    else if entries[0].name != path[0] then Lookup(entries[1..], path)
    else
      match entries[0].node
      case File(content) => if |path| == 1 then Some(content) else None
      case Dir(inner) => Lookup(inner, path[1..])
  }

  /** Names hold no slash, and a directory holds no name twice. */
  predicate WellNamed(entries: seq<Entry>)
    decreases entries
  {
    |entries| > 0 ==>
      && '/' !in entries[0].name
      && (forall e <- entries[1..] :: e.name != entries[0].name)
      && WellNamed(entries[1..])
      && (entries[0].node.Dir? ==> WellNamed(entries[0].node.entries))
  }

  function KeyOf(prefix: string, path: seq<string>): string {
    prefix + "/" + Join(path, '/')
  }

  predicate Proper(path: seq<string>) {
    |path| > 0 && forall name <- path :: '/' !in name
  }

  lemma KeyOfInjective(prefix: string, p: seq<string>, q: seq<string>)
    requires Proper(p) && Proper(q) && KeyOf(prefix, p) == KeyOf(prefix, q)
    ensures p == q
  {
    var key := KeyOf(prefix, p);
    assert key[|prefix| + 1..] == Join(p, '/') && KeyOf(prefix, q)[|prefix| + 1..] == Join(q, '/');
    SplitJoined(p, '/');
    SplitJoined(q, '/');
  }

  lemma KeyBelow(prefix: string, name: string, path: seq<string>)
    requires |path| > 0
    ensures KeyOf(prefix + "/" + name, path) == KeyOf(prefix, [name] + path)
    ensures KeyOf(prefix, [name]) == prefix + "/" + name
  {
    assert ([name] + path)[1..] == path;
    assert prefix + "/" + (name + ['/'] + Join(path, '/')) == prefix + "/" + name + "/" + Join(path, '/');
  }

  lemma {:induction false} LookupProper(entries: seq<Entry>, path: seq<string>)
    requires WellNamed(entries) && Lookup(entries, path).Some?
    ensures Proper(path)
    decreases entries
  {
    if entries[0].name != path[0] {
      LookupProper(entries[1..], path);
    } else if entries[0].node.Dir? {
      LookupProper(entries[0].node.entries, path[1..]);
      assert path == [path[0]] + path[1..];
    } else {
      assert path == [path[0]];
    }
  }

  /** A name that no entry has leads nowhere. */
  lemma {:induction false} LookupMisses(entries: seq<Entry>, path: seq<string>)
    requires |path| > 0 && forall e <- entries :: e.name != path[0]
    ensures Lookup(entries, path) == None
    decreases entries
  {
    if |entries| > 0 {
      LookupMisses(entries[1..], path);
    }
  }

  /** Every file is uploaded under its own path ... */
  lemma {:induction false} FileUploaded(prefix: string, entries: seq<Entry>, path: seq<string>)
    requires Lookup(entries, path).Some?
    ensures Placed(KeyOf(prefix, path), Lookup(entries, path).value) in Uploads(prefix, entries)
    decreases entries
  {
    hide KeyOf;
    var e := entries[0];
    if e.name != path[0] {
      FileUploaded(prefix, entries[1..], path);
    } else {
      if e.node.Dir? {
        FileUploaded(prefix + "/" + e.name, e.node.entries, path[1..]);
        assert |path[1..]| > 0;
        KeyBelow(prefix, e.name, path[1..]);
        assert path == [e.name] + path[1..];
      } else {
        KeyBelow(prefix, e.name, path);
        assert path == [e.name];
      }
    }
  }

  /** ... and every upload is of a file of the tree. */
  lemma {:induction false} UploadLocated(prefix: string, entries: seq<Entry>, u: Placed) returns (path: seq<string>)
    requires WellNamed(entries) && u in Uploads(prefix, entries)
    ensures Lookup(entries, path) == Some(u.content) && u.key == KeyOf(prefix, path)
    decreases entries
  {
    hide KeyOf;
    var e := entries[0];
    if u in EntryUploads(prefix, e) {
      if e.node.Dir? {
        var inner := UploadLocated(prefix + "/" + e.name, e.node.entries, u);
        path := [e.name] + inner;
        assert path[1..] == inner && |inner| > 0;
        KeyBelow(prefix, e.name, inner);
      } else {
        path := [e.name];
        KeyBelow(prefix, e.name, path);
      }
    } else {
      path := UploadLocated(prefix, entries[1..], u);
      if path[0] == e.name {
        LookupMisses(entries[1..], path);
      }
    }
  }

  /** The uploads of a whole tree: each file's content under the prefix and its path, nothing else. */
  lemma UploadsExactlyTheFiles(prefix: string, entries: seq<Entry>, key: string, content: Content)
    requires WellNamed(entries)
    ensures Placed(key, content) in Uploads(prefix, entries) <==>
            exists path :: Lookup(entries, path) == Some(content) && key == KeyOf(prefix, path)
  {
    if Placed(key, content) in Uploads(prefix, entries) {
      var path := UploadLocated(prefix, entries, Placed(key, content));
    }
    if path :| Lookup(entries, path) == Some(content) && key == KeyOf(prefix, path) {
      FileUploaded(prefix, entries, path);
    }
  }

  /** No key is written twice. */
  lemma {:induction false} KeysDistinct(prefix: string, entries: seq<Entry>, i: nat, j: nat)
    requires WellNamed(entries) && i < j < |Uploads(prefix, entries)|
    ensures Uploads(prefix, entries)[i].key != Uploads(prefix, entries)[j].key
    decreases entries
  {
    hide KeyOf;
    var e := entries[0];
    var first, rest := EntryUploads(prefix, e), Uploads(prefix, entries[1..]);
    if j < |first| {
      KeysDistinct(prefix + "/" + e.name, e.node.entries, i, j);
    } else if i >= |first| {
      KeysDistinct(prefix, entries[1..], i - |first|, j - |first|);
    } else {
      var u, v := first[i], rest[j - |first|];
      var p := UploadLocated(prefix, [e], u);
      var q := UploadLocated(prefix, entries[1..], v);
      LookupProper([e], p);
      LookupProper(entries[1..], q);
      if q[0] == e.name {
        LookupMisses(entries[1..], q);
      }
      if u.key == v.key {
        KeyOfInjective(prefix, p, q);
      }
    }
  }

  function FileCount(entries: seq<Entry>): nat
    decreases entries
  {
    if |entries| == 0 then 0
    else
      (match entries[0].node
       case File(_) => 1
       case Dir(inner) => FileCount(inner)) + FileCount(entries[1..])
  }

  lemma {:induction false} OneUploadPerFile(prefix: string, entries: seq<Entry>)
    ensures |Uploads(prefix, entries)| == FileCount(entries)
    decreases entries
  {
    if |entries| > 0 {
      OneUploadPerFile(prefix, entries[1..]);
      if entries[0].node.Dir? {
        OneUploadPerFile(prefix + "/" + entries[0].name, entries[0].node.entries);
      }
    }
  }

  lemma {:induction false} PutLooksUp(objects: map<string, Content>, uploads: seq<Placed>, i: nat)
    requires i < |uploads|
    requires forall j :: i < j < |uploads| ==> uploads[j].key != uploads[i].key
    ensures uploads[i].key in Put(objects, uploads) && Put(objects, uploads)[uploads[i].key] == uploads[i].content
    decreases |uploads|
  {
    var n := |uploads| - 1;
    if i < n {
      PutLooksUp(objects, uploads[..n], i);
    }
  }

  lemma {:induction false} PutKeeps(objects: map<string, Content>, uploads: seq<Placed>, key: string)
    requires forall u <- uploads :: u.key != key
    ensures key in Put(objects, uploads) <==> key in objects
    ensures key in objects ==> Put(objects, uploads)[key] == objects[key]
    decreases |uploads|
  {
    if |uploads| > 0 {
      PutKeeps(objects, uploads[..|uploads| - 1], key);
    }
  }

  /** After an error-free run each file's content is found under the prefix and its path, and
      no other key has changed. */
  lemma TreeStored(objects: map<string, Content>, prefix: string, entries: seq<Entry>, key: string)
    requires WellNamed(entries)
    ensures var stored := Put(objects, Uploads(prefix, entries));
      && (forall path :: Lookup(entries, path).Some? && key == KeyOf(prefix, path) ==>
            key in stored && stored[key] == Lookup(entries, path).value)
      && ((forall path :: Lookup(entries, path).Some? ==> key != KeyOf(prefix, path)) ==>
            (key in stored <==> key in objects) && (key in objects ==> stored[key] == objects[key]))
  {
    hide KeyOf, Put;
    var uploads := Uploads(prefix, entries);
    forall path | Lookup(entries, path).Some? && key == KeyOf(prefix, path)
      ensures key in Put(objects, uploads) && Put(objects, uploads)[key] == Lookup(entries, path).value
    {
      FileUploaded(prefix, entries, path);
      var i :| 0 <= i < |uploads| && uploads[i] == Placed(key, Lookup(entries, path).value);
      forall j | i < j < |uploads|
        ensures uploads[j].key != uploads[i].key
      {
        KeysDistinct(prefix, entries, i, j);
      }
      PutLooksUp(objects, uploads, i);
    }
    if forall path :: Lookup(entries, path).Some? ==> key != KeyOf(prefix, path) {
      forall u | u in uploads
        ensures u.key != key
      {
        var path := UploadLocated(prefix, entries, u);
      }
      PutKeeps(objects, uploads, key);
    }
  }
}
