/** The archive bucket's inventory: a walk over the bucket's folders, page by page, and its reconciliation with
    the manifests. The server may answer any request with an error or with an invalid page. */
module Inventory {
  import opened Common
  import opened Lexicographic

  datatype Node = File(size: nat) | Folder(items: seq<Item>)

  datatype Item = Item(name: string, node: Node)

  datatype StorageObject = StorageObject(path: string, size: nat)

  const PAGE_LIMIT: nat := 1000

  // ---------------------------------------------------------------- the bucket

  // A finite tree that does not change during the walk.

  predicate IsSegment(name: string) { name != "" && '/' !in name }

  /** Names are path segments; within a folder no two files have one name, and no two folders. */
  predicate WellFormed(items: seq<Item>) {
    && (forall i, j | 0 <= i < j < |items| ::
          items[i].name != items[j].name || items[i].node.Folder? != items[j].node.Folder?)
    && (forall i | 0 <= i < |items| ::
          IsSegment(items[i].name) && (items[i].node.Folder? ==> WellFormed(items[i].node.items)))
  }

  function Join(prefix: string, name: string): string {
    if prefix == "" then name else prefix + "/" + name
  }

  /** Every object below `prefix`, with its full path. */
  function Objects(prefix: string, items: seq<Item>): multiset<StorageObject>
    decreases items
  {
    if items == [] then multiset{}
    else Objects(prefix, items[..|items| - 1]) + ObjectsAt(prefix, items[|items| - 1])
  }

  function ObjectsAt(prefix: string, item: Item): multiset<StorageObject>
    decreases item
  {
    match item.node
    case File(size) => multiset{StorageObject(Join(prefix, item.name), size)}
    case Folder(items) => Objects(Join(prefix, item.name), items)
  }

  /** The number of files and folders. */
  function Weight(items: seq<Item>): nat {
    if items == [] then 0 else Weight(items[..|items| - 1]) + WeightAt(items[|items| - 1])
  }

  function WeightAt(item: Item): nat {
    if item.node.Folder? then 1 + Weight(item.node.items) else 1
  }

  function FirstSegment(path: string): (r: string)
    ensures r <= path && '/' !in r
    ensures |r| < |path| ==> path[|r|] == '/'
  {
    if path == "" || path[0] == '/' then "" else [path[0]] + FirstSegment(path[1..])
  }

  function Child(items: seq<Item>, name: string): Option<seq<Item>> {
    if items == [] then None
    else
      var item := items[|items| - 1];
      if item.name == name && item.node.Folder? then Some(item.node.items) else Child(items[..|items| - 1], name)
  }

  /** The folder a prefix names. */
  function Find(items: seq<Item>, prefix: string): Option<seq<Item>>
    decreases |prefix|
  {
    if prefix == "" then Some(items)
    else
      var name := FirstSegment(prefix);
      var child := Child(items, name);
      if child.None? then None else Find(child.value, Tail(prefix, name))
  }

  // ---------------------------------------------------------------- the server

  datatype Metadata = NoMetadata | BadMetadata | Metadata(size: Option<int>)

  datatype Entry = BadItem | Entry(name: string, metadata: Metadata)

  datatype Response = Refused(status: int) | NotAList | Listing(entries: seq<Entry>)

  predicate BadEntry(e: Entry) {
    e.BadItem? || e.metadata.BadMetadata?
    || (e.metadata.Metadata? && (e.metadata.size.None? || e.metadata.size.value < 0))
  }

  predicate Sound(entries: seq<Entry>) {
    forall i | 0 <= i < |entries| :: !BadEntry(entries[i])
  }

  predicate Broken(r: Response) {
    r.Refused? || r.NotAList? || !Sound(r.entries)
  }

  function EntryOf(item: Item): Entry {
    Entry(item.name, if item.node.Folder? then NoMetadata else Metadata(Some(item.node.size)))
  }

  function Entries(items: seq<Item>): (es: seq<Entry>)
    ensures |es| == |items| && forall i | 0 <= i < |es| :: es[i] == EntryOf(items[i])
  {
    seq(|items|, i requires 0 <= i < |items| => EntryOf(items[i]))
  }

  function Min(a: nat, b: nat): nat { if a < b then a else b }

  function PageAt(entries: seq<Entry>, offset: nat): seq<Entry> {
    entries[Min(offset, |entries|)..Min(offset + PAGE_LIMIT, |entries|)]
  }

  /** A page has a thousand entries, or what is left from its offset on. */
  lemma PageIs(entries: seq<Entry>, offset: nat)
    ensures var left := if offset < |entries| then |entries| - offset else 0;
            |PageAt(entries, offset)| == if left < 1000 then left else 1000
    ensures forall i | 0 <= i < |PageAt(entries, offset)| :: PageAt(entries, offset)[i] == entries[offset + i]
  {
  }

  /** Each request is answered with an error or an invalid page, or with the right page of that folder. */
  ghost predicate Serves(serve: (string, nat) -> Response, root: seq<Item>) {
    forall prefix, offset ::
      || Broken(serve(prefix, offset))
      || serve(prefix, offset)
         == Listing(if Find(root, prefix).None? then [] else PageAt(Entries(Find(root, prefix).value), offset))
  }

  ghost predicate Faithful(serve: (string, nat) -> Response) {
    forall prefix, offset :: !Broken(serve(prefix, offset))
  }

  // ---------------------------------------------------------------- paths

  lemma {:induction false} FirstSegmentIs(name: string, rest: string)
    requires '/' !in name && (rest != "" ==> rest[0] == '/')
    ensures FirstSegment(name + rest) == name
  {
    if name == "" {
      assert name + rest == rest;
    } else {
      assert name == [name[0]] + name[1..];
      assert (name + rest)[1..] == name[1..] + rest;
      FirstSegmentIs(name[1..], rest);
    }
  }

  lemma {:induction false} ChildOf(items: seq<Item>, k: nat)
    requires WellFormed(items) && k < |items| && items[k].node.Folder?
    ensures Child(items, items[k].name) == Some(items[k].node.items)
  {
    if k < |items| - 1 {
      var init := items[..|items| - 1];
      assert items[k].name != items[|items| - 1].name || !items[|items| - 1].node.Folder?;
      ChildOf(init, k);
    }
  }

  /** A folder's path: empty, or not ending in a slash. */
  predicate IsPath(path: string) { path == "" || path[|path| - 1] != '/' }

  function Tail(path: string, head: string): string
    requires head <= path
  {
    if |path| == |head| then "" else path[|head| + 1..]
  }

  function Slash(head: string, rest: string): string { head + ("/" + rest) }

  lemma SlashParts(head: string, rest: string)
    requires '/' !in head
    ensures FirstSegment(Slash(head, rest)) == head && Tail(Slash(head, rest), head) == rest
  {
    FirstSegmentIs(head, "/" + rest);
    assert Slash(head, rest)[|head| + 1..] == rest;
  }

  lemma JoinHead(path: string, name: string)
    requires IsSegment(name) && path != "" && IsPath(path)
    ensures var head := FirstSegment(path);
            && FirstSegment(Join(path, name)) == head && IsPath(Tail(path, head))
            && head <= Join(path, name) && Tail(Join(path, name), head) == Join(Tail(path, head), name)
  {
    var head := FirstSegment(path);
    if |path| == |head| {
      assert Join(path, name) == Slash(head, name);
      SlashParts(head, name);
    } else {
      var tail := Tail(path, head);
      assert path == Slash(head, tail);
      assert tail != "" && tail[|tail| - 1] == path[|path| - 1];
      assert Join(path, name) == Slash(head, tail + "/" + name);
      SlashParts(head, tail + "/" + name);
    }
  }

  lemma {:induction false} FindChild(root: seq<Item>, path: string, items: seq<Item>, k: nat)
    requires Find(root, path) == Some(items) && WellFormed(items) && IsPath(path)
    requires k < |items| && items[k].node.Folder?
    ensures Find(root, Join(path, items[k].name)) == Some(items[k].node.items)
    decreases |path|
  {
    var name := items[k].name;
    if path == "" {
      FirstSegmentIs(name, "");
      assert name + "" == name;
      ChildOf(items, k);
    } else {
      var head := FirstSegment(path);
      JoinHead(path, name);
      FindChild(Child(root, head).value, Tail(path, head), items, k);
    }
  }

  /** The segment of a path just below a prefix. */
  function NameBelow(prefix: string, path: string): string
    requires |prefix| < |path|
  {
    FirstSegment(if prefix == "" then path else path[|prefix| + 1..])
  }

  predicate Below(prefix: string, path: string) {
    |prefix| < |path| && prefix <= path && (prefix != "" ==> path[|prefix|] == '/')
  }

  lemma NameIs(prefix: string, name: string, rest: string)
    requires IsSegment(name) && (rest != "" ==> rest[0] == '/')
    ensures Below(prefix, Join(prefix, name) + rest) && NameBelow(prefix, Join(prefix, name) + rest) == name
  {
    var path := Join(prefix, name) + rest;
    FirstSegmentIs(name, rest);
    if prefix != "" {
      assert path[|prefix| + 1..] == name + rest;
    }
  }

  /** The item's own path, if it is a file; else a path below it. */
  predicate Through(prefix: string, item: Item, path: string) {
    && Below(prefix, path) && NameBelow(prefix, path) == item.name
    && if item.node.Folder? then |path| > |Join(prefix, item.name)| else path == Join(prefix, item.name)
  }

  /** An object's path goes through the item it is found under. */
  lemma {:induction false} PathBelowItem(prefix: string, item: Item, o: StorageObject)
    requires IsSegment(item.name) && (item.node.Folder? ==> WellFormed(item.node.items))
    requires o in ObjectsAt(prefix, item)
    ensures Through(prefix, item, o.path)
    decreases item
  {
    var path := Join(prefix, item.name);
    if item.node.Folder? {
      PathBelowOne(path, item.node.items, o);
      var rest := o.path[|path|..];
      assert o.path == path + rest;
      NameIs(prefix, item.name, rest);
    } else {
      assert path == path + "";
      NameIs(prefix, item.name, "");
    }
  }

  lemma {:induction false} PathBelowOne(prefix: string, items: seq<Item>, o: StorageObject)
    requires WellFormed(items) && o in Objects(prefix, items)
    ensures exists k | 0 <= k < |items| :: Through(prefix, items[k], o.path)
    decreases items
  {
    var init, item := items[..|items| - 1], items[|items| - 1];
    if o in Objects(prefix, init) {
      PathBelowOne(prefix, init, o);
      var k :| 0 <= k < |init| && Through(prefix, init[k], o.path);
      assert Through(prefix, items[k], o.path);
    } else {
      PathBelowItem(prefix, item, o);
    }
  }

  lemma Apart(prefix: string, items: seq<Item>, o: StorageObject, p: StorageObject)
    requires WellFormed(items) && items != []
    requires o in Objects(prefix, items[..|items| - 1]) && p in ObjectsAt(prefix, items[|items| - 1])
    ensures o.path != p.path
  {
    PathBelowOne(prefix, items[..|items| - 1], o);
    PathBelowItem(prefix, items[|items| - 1], p);
    var k :| 0 <= k < |items| - 1 && Through(prefix, items[..|items| - 1][k], o.path);
    assert items[k].name != items[|items| - 1].name || items[k].node.Folder? != items[|items| - 1].node.Folder?;
  }

  /** No two objects have one path, and none is there twice. */
  lemma {:induction false} PathsDistinct(prefix: string, items: seq<Item>, o: StorageObject, p: StorageObject)
    requires WellFormed(items) && o in Objects(prefix, items) && p in Objects(prefix, items) && o.path == p.path
    ensures o == p && Objects(prefix, items)[o] == 1
    decreases items
  {
    var init, item := items[..|items| - 1], items[|items| - 1];
    if o in Objects(prefix, init) {
      if p in ObjectsAt(prefix, item) { Apart(prefix, items, o, p); }
      if o in ObjectsAt(prefix, item) { Apart(prefix, items, o, o); }
      PathsDistinct(prefix, init, o, p);
    } else {
      if p in Objects(prefix, init) { Apart(prefix, items, p, o); }
      if item.node.Folder? { PathsDistinct(Join(prefix, item.name), item.node.items, o, p); }
    }
  }

  // ---------------------------------------------------------------- what the walk still owes

  /** A folder waiting to be listed. */
  datatype Pending = Pending(path: string, items: seq<Item>)

  function Paths(work: seq<Pending>): (paths: seq<string>)
    ensures |paths| == |work| && forall i | 0 <= i < |work| :: paths[i] == work[i].path
  {
    seq(|work|, i requires 0 <= i < |work| => work[i].path)
  }

  ghost predicate InTree(root: seq<Item>, work: seq<Pending>) {
    forall w | w in work :: Find(root, w.path) == Some(w.items) && WellFormed(w.items) && IsPath(w.path)
  }

  /** The objects below the waiting folders. */
  function Owed(work: seq<Pending>): multiset<StorageObject> {
    if work == [] then multiset{}
    else Owed(work[..|work| - 1]) + Objects(work[|work| - 1].path, work[|work| - 1].items)
  }

  function AllWeight(work: seq<Pending>): nat {
    if work == [] then 0 else AllWeight(work[..|work| - 1]) + 1 + Weight(work[|work| - 1].items)
  }

  function SubFolders(prefix: string, items: seq<Item>): seq<Pending> {
    if items == [] then []
    else
      SubFolders(prefix, items[..|items| - 1]) + SubAt(prefix, items[|items| - 1])
  }

  function SubAt(prefix: string, item: Item): seq<Pending> {
    if item.node.Folder? then [Pending(Join(prefix, item.name), item.node.items)] else []
  }

  /** The objects a page names, and the folders it names. */
  function FilesIn(prefix: string, entries: seq<Entry>): seq<StorageObject>
    requires Sound(entries)
  {
    if entries == [] then []
    else
      FilesIn(prefix, entries[..|entries| - 1]) + FilesAt(prefix, entries[|entries| - 1])
  }

  function FilesAt(prefix: string, e: Entry): seq<StorageObject>
    requires !BadEntry(e)
  {
    if e.metadata.Metadata? then [StorageObject(Join(prefix, e.name), e.metadata.size.value)] else []
  }

  function FoldersIn(prefix: string, entries: seq<Entry>): seq<string>
    requires Sound(entries)
  {
    if entries == [] then []
    else
      FoldersIn(prefix, entries[..|entries| - 1]) + FoldersAt(prefix, entries[|entries| - 1])
  }

  function FoldersAt(prefix: string, e: Entry): seq<string>
    requires !BadEntry(e)
  {
    if e.metadata.NoMetadata? then [Join(prefix, e.name)] else []
  }

  lemma PendingStep(work: seq<Pending>, w: Pending)
    ensures Paths(work + [w]) == Paths(work) + [w.path]
    ensures Owed(work + [w]) == Owed(work) + Objects(w.path, w.items)
    ensures AllWeight(work + [w]) == AllWeight(work) + 1 + Weight(w.items)
  {
    assert (work + [w])[..|work|] == work;
  }

  /** Files and folders hold together these objects, and weigh at most so much. */
  predicate Holds(files: seq<StorageObject>, folders: seq<string>, sub: seq<Pending>,
                  objects: multiset<StorageObject>, weight: nat) {
    multiset(files) + Owed(sub) == objects && folders == Paths(sub) && AllWeight(sub) <= weight
  }

  lemma HoldsStep(files: seq<StorageObject>, folders: seq<string>, sub: seq<Pending>,
                  objects: multiset<StorageObject>, weight: nat, prefix: string, item: Item)
    requires Holds(files, folders, sub, objects, weight)
    ensures Holds(files + FilesAt(prefix, EntryOf(item)), folders + FoldersAt(prefix, EntryOf(item)),
                  sub + SubAt(prefix, item), objects + ObjectsAt(prefix, item), weight + WeightAt(item))
  {
    if item.node.Folder? {
      PendingStep(sub, Pending(Join(prefix, item.name), item.node.items));
    } else {
      assert sub + [] == sub && folders + [] == folders;
    }
  }

  /** A page's files and sub-folders together hold what is below its items. */
  lemma {:induction false} PageConserves(prefix: string, items: seq<Item>)
    ensures Holds(FilesIn(prefix, Entries(items)), FoldersIn(prefix, Entries(items)), SubFolders(prefix, items),
                  Objects(prefix, items), Weight(items))
  {
    if items != [] {
      var init, item, entries := items[..|items| - 1], items[|items| - 1], Entries(items);
      PageConserves(prefix, init);
      assert entries[..|entries| - 1] == Entries(init);
      HoldsStep(FilesIn(prefix, Entries(init)), FoldersIn(prefix, Entries(init)), SubFolders(prefix, init),
                Objects(prefix, init), Weight(init), prefix, item);
    }
  }

  lemma {:induction false} OwedAppend(a: seq<Pending>, b: seq<Pending>)
    ensures Owed(a + b) == Owed(a) + Owed(b) && AllWeight(a + b) == AllWeight(a) + AllWeight(b)
  {
    if b == [] {
      assert a + b == a;
    } else {
      assert (a + b)[..|a + b| - 1] == a + b[..|b| - 1];
      OwedAppend(a, b[..|b| - 1]);
    }
  }

  lemma {:induction false} ObjectsAppend(prefix: string, a: seq<Item>, b: seq<Item>)
    ensures Objects(prefix, a + b) == Objects(prefix, a) + Objects(prefix, b)
    ensures Weight(a + b) == Weight(a) + Weight(b)
  {
    if b == [] {
      assert a + b == a;
    } else {
      assert (a + b)[..|a + b| - 1] == a + b[..|b| - 1];
      ObjectsAppend(prefix, a, b[..|b| - 1]);
    }
  }

  lemma {:induction false} SubFoldersInTree(root: seq<Item>, path: string, items: seq<Item>, from: nat, to: nat)
    requires Find(root, path) == Some(items) && WellFormed(items) && IsPath(path) && from <= to <= |items|
    ensures InTree(root, SubFolders(path, items[from..to]))
  {
    if from < to {
      SubFoldersInTree(root, path, items, from, to - 1);
      var part, k := items[from..to], to - 1;
      assert part[..|part| - 1] == items[from..to - 1];
      assert part[|part| - 1] == items[k];
      if items[k].node.Folder? {
        FindChild(root, path, items, k);
        var name := items[k].name;
        assert Join(path, name)[|Join(path, name)| - 1] == name[|name| - 1];
      }
    }
  }

  // ---------------------------------------------------------------- sorting

  predicate SortedByPath(objects: seq<StorageObject>) {
    forall i, j | 0 <= i < j < |objects| :: LessEq(objects[i].path, objects[j].path)
  }

  /** Python's sorted with the path as key. */
  function SortByPath(objects: seq<StorageObject>): (r: seq<StorageObject>)
    ensures SortedByPath(r) && multiset(r) == multiset(objects)
  {
    if objects == [] then []
    else
      assert objects == objects[..|objects| - 1] + [objects[|objects| - 1]];
      Place(SortByPath(objects[..|objects| - 1]), objects[|objects| - 1])
  }

  function Place(sorted: seq<StorageObject>, o: StorageObject): (r: seq<StorageObject>)
    requires SortedByPath(sorted)
    ensures SortedByPath(r) && multiset(r) == multiset(sorted) + multiset{o}
  {
    if sorted == [] then [o]
    else
      var init, last := sorted[..|sorted| - 1], sorted[|sorted| - 1];
      assert sorted == init + [last];
      if Less(o.path, last.path) then
        var front := Place(init, o);
        (PlaceBelow(init, last, o, front); front + [last])
      else
        (PlaceLast(sorted, o); sorted + [o])
  }

  lemma PlaceBelow(init: seq<StorageObject>, last: StorageObject, o: StorageObject, front: seq<StorageObject>)
    requires SortedByPath(init + [last]) && Less(o.path, last.path)
    requires SortedByPath(front) && multiset(front) == multiset(init) + multiset{o}
    ensures SortedByPath(front + [last])
  {
    forall i | 0 <= i < |front|
      ensures LessEq(front[i].path, last.path)
    {
      assert front[i] in multiset(front);
      if front[i] != o {
        assert front[i] in init;
        var k :| 0 <= k < |init| && init[k] == front[i];
        assert (init + [last])[k] == front[i] && (init + [last])[|init|] == last;
      }
    }
  }

  lemma PlaceLast(sorted: seq<StorageObject>, o: StorageObject)
    requires SortedByPath(sorted) && sorted != [] && !Less(o.path, sorted[|sorted| - 1].path)
    ensures SortedByPath(sorted + [o])
  {
    var last := sorted[|sorted| - 1];
    Total(o.path, last.path);
    forall i | 0 <= i < |sorted|
      ensures LessEq(sorted[i].path, o.path)
    {
      if sorted[i].path != last.path && last.path != o.path { Transitive(sorted[i].path, last.path, o.path); }
    }
  }

  // ---------------------------------------------------------------- the walk

  datatype Error =
    | BadLimit
    | HttpStatus(status: int)
    | NotAnInventory
    | InvalidItem
    | TooManyObjects

  datatype Found = Found(objects: seq<StorageObject>, pending: seq<string>)

  lemma TakeOne(prefix: string, entries: seq<Entry>, i: nat, objects: seq<StorageObject>, pending: seq<string>,
                os: seq<StorageObject>, ps: seq<string>)
    requires i < |entries| && Sound(entries[..i]) && !BadEntry(entries[i])
    requires os == objects + FilesIn(prefix, entries[..i]) && ps == pending + FoldersIn(prefix, entries[..i])
    ensures Sound(entries[..i + 1])
    ensures var e := entries[i];
            var path := Join(prefix, e.name);
            if e.metadata.NoMetadata? then
              && objects + FilesIn(prefix, entries[..i + 1]) == os
              && pending + FoldersIn(prefix, entries[..i + 1]) == ps + [path]
            else
              && objects + FilesIn(prefix, entries[..i + 1]) == os + [StorageObject(path, e.metadata.size.value)]
              && pending + FoldersIn(prefix, entries[..i + 1]) == ps
  {
    assert entries[..i + 1][..i] == entries[..i];
  }

  /** Takes up a page's entries one by one. */
  method ReadPage(prefix: string, entries: seq<Entry>, objects: seq<StorageObject>, pending: seq<string>,
                  maxObjects: nat)
    returns (r: Result<Found, Error>)
    requires |objects| <= maxObjects
    ensures r.Ok? ==> Sound(entries) && |r.value.objects| <= maxObjects
    ensures r.Ok? ==> r.value == Found(objects + FilesIn(prefix, entries), pending + FoldersIn(prefix, entries))
    ensures r.Err? ==>
              if Sound(entries) then r.error == TooManyObjects && |objects + FilesIn(prefix, entries)| > maxObjects
              else r.error == InvalidItem || r.error == TooManyObjects
  {
    var os, ps, i := objects, pending, 0;
    while i < |entries|
      invariant 0 <= i <= |entries| && Sound(entries[..i]) && |os| <= maxObjects
      invariant os == objects + FilesIn(prefix, entries[..i])
      invariant ps == pending + FoldersIn(prefix, entries[..i])
    {
      var e := entries[i];
      if BadEntry(e) { return Err(InvalidItem); }
      TakeOne(prefix, entries, i, objects, pending, os, ps);
      var path := Join(prefix, e.name);
      if e.metadata.NoMetadata? {
        ps := ps + [path];
      } else {
        os := os + [StorageObject(path, e.metadata.size.value)];
        if |os| > maxObjects {
          assert os == objects + FilesIn(prefix, entries[..i + 1]);
          if Sound(entries) { FilesGrow(prefix, entries, i + 1); }
          return Err(TooManyObjects);
        }
      }
      i := i + 1;
    }
    assert entries[..i] == entries;
    return Ok(Found(os, ps));
  }

  lemma {:induction false} FilesGrow(prefix: string, entries: seq<Entry>, k: nat)
    requires Sound(entries) && k <= |entries|
    ensures |FilesIn(prefix, entries[..k])| <= |FilesIn(prefix, entries)|
  {
    if k < |entries| {
      FilesGrow(prefix, entries[..|entries| - 1], k);
      assert entries[..|entries| - 1][..k] == entries[..k];
    } else {
      assert entries[..k] == entries;
    }
  }

  lemma {:induction false} ReadAppend(prefix: string, a: seq<Entry>, b: seq<Entry>)
    requires Sound(a) && Sound(b) && Sound(a + b)
    ensures FilesIn(prefix, a + b) == FilesIn(prefix, a) + FilesIn(prefix, b)
    ensures FoldersIn(prefix, a + b) == FoldersIn(prefix, a) + FoldersIn(prefix, b)
  {
    if b == [] {
      assert a + b == a;
    } else {
      assert (a + b)[..|a + b| - 1] == a + b[..|b| - 1];
      ReadAppend(prefix, a, b[..|b| - 1]);
    }
  }

  /** What is found with the objects and folders of these entries added. */
  function Read(prefix: string, objects: seq<StorageObject>, pending: seq<string>, entries: seq<Entry>): Found
    requires Sound(entries)
  {
    Found(objects + FilesIn(prefix, entries), pending + FoldersIn(prefix, entries))
  }

  lemma ReadFurther(prefix: string, objects: seq<StorageObject>, pending: seq<string>, all: seq<Entry>, k: nat, m: nat)
    requires k <= m <= |all| && Sound(all)
    ensures var found := Read(prefix, objects, pending, all[..k]);
            Read(prefix, found.objects, found.pending, all[k..m]) == Read(prefix, objects, pending, all[..m])
  {
    assert all[..k] + all[k..m] == all[..m];
    ReadAppend(prefix, all[..k], all[k..m]);
  }

  /** Each request for this folder gets an error, an invalid page, or the page asked for. */
  ghost predicate ServesFolder(serve: (string, nat) -> Response, path: string, all: seq<Entry>) {
    forall offset: nat :: Broken(serve(path, offset)) || serve(path, offset) == Listing(PageAt(all, offset))
  }

  /** Reads one folder to its end, page by page. */
  method ListFolder(serve: (string, nat) -> Response, ghost all: seq<Entry>, prefix: string,
                    objects: seq<StorageObject>, pending: seq<string>, maxObjects: nat)
    returns (r: Result<Found, Error>)
    requires ServesFolder(serve, prefix, all) && Sound(all) && |objects| <= maxObjects
    ensures r.Ok? ==> r.value == Read(prefix, objects, pending, all) && |r.value.objects| <= maxObjects
    ensures r.Err? ==> r.error != BadLimit
    ensures r.Err? && Faithful(serve) ==>
              r.error == TooManyObjects && |Read(prefix, objects, pending, all).objects| > maxObjects
  {
    var found, offset := Found(objects, pending), 0;
    while true
      invariant offset <= |all| && |found.objects| <= maxObjects
      invariant found == Read(prefix, objects, pending, all[..offset])
      decreases |all| - offset
    {
      var response := serve(prefix, offset);
      if response.Refused? { return Err(HttpStatus(response.status)); }
      if response.NotAList? { return Err(NotAnInventory); }
      var page := ReadPage(prefix, response.entries, found.objects, found.pending, maxObjects);
      ghost var next := offset + |PageAt(all, offset)|;
      ReadFurther(prefix, objects, pending, all, offset, next);
      FilesGrow(prefix, all, next);
      if page.Err? { return Err(page.error); }
      found := page.value;
      if |response.entries| < PAGE_LIMIT {
        assert all[..next] == all;
        return Ok(found);
      }
      offset := offset + |response.entries|;
    }
  }

  /** Reading a folder moves what is below it from the owed to the found, and the walk gets closer to its end. */
  lemma FolderStep(files: seq<StorageObject>, folders: seq<string>, sub: seq<Pending>, below: multiset<StorageObject>,
                   weight: nat, objects: seq<StorageObject>, work: seq<Pending>)
    requires Holds(files, folders, sub, below, weight)
    ensures multiset(objects + files) + Owed(work + sub) == multiset(objects) + (Owed(work) + below)
    ensures Paths(work) + folders == Paths(work + sub)
    ensures AllWeight(work + sub) <= AllWeight(work) + weight
  {
    OwedAppend(work, sub);
    Exchange(multiset(objects), multiset(files), Owed(work), Owed(sub));
  }

  lemma Exchange<T>(a: multiset<T>, b: multiset<T>, c: multiset<T>, d: multiset<T>)
    ensures (a + b) + (c + d) == a + (c + (b + d))
  {
  }

  /** The waiting folders once the last of them has been read. */
  function Onward(work: seq<Pending>): seq<Pending>
    requires work != []
  {
    work[..|work| - 1] + SubFolders(work[|work| - 1].path, work[|work| - 1].items)
  }

  ghost predicate Walk(root: seq<Item>, work: seq<Pending>, objects: seq<StorageObject>) {
    InTree(root, work) && multiset(objects) + Owed(work) == Objects("", root)
  }

  lemma OnwardInTree(root: seq<Item>, work: seq<Pending>)
    requires work != [] && InTree(root, work)
    ensures InTree(root, Onward(work))
  {
    var folder := work[|work| - 1];
    assert folder in work;
    SubFoldersInTree(root, folder.path, folder.items, 0, |folder.items|);
    assert folder.items[0..|folder.items|] == folder.items;
  }

  lemma PathsInit(work: seq<Pending>)
    requires work != []
    ensures Paths(work)[..|work| - 1] == Paths(work[..|work| - 1])
  {
  }

  lemma FoundWithin(objects: seq<StorageObject>, owed: multiset<StorageObject>, all: multiset<StorageObject>)
    requires multiset(objects) + owed == all
    ensures |objects| <= |all|
  {
    assert |multiset(objects)| == |objects|;
  }

  lemma WalkStep(root: seq<Item>, work: seq<Pending>, objects: seq<StorageObject>, path: string, all: seq<Entry>)
    requires work != [] && Walk(root, work, objects)
    requires path == work[|work| - 1].path && all == Entries(work[|work| - 1].items)
    ensures Sound(all) && Walk(root, Onward(work), objects + FilesIn(path, all))
    ensures |objects + FilesIn(path, all)| <= |Objects("", root)|
    ensures Paths(work)[..|work| - 1] + FoldersIn(path, all) == Paths(Onward(work))
    ensures AllWeight(Onward(work)) < AllWeight(work)
  {
    var items, rest := work[|work| - 1].items, work[..|work| - 1];
    OnwardInTree(root, work);
    PageConserves(path, items);
    FolderStep(FilesIn(path, all), FoldersIn(path, all), SubFolders(path, items), Objects(path, items),
               Weight(items), objects, rest);
    PathsInit(work);
    FoundWithin(objects + FilesIn(path, all), Owed(Onward(work)), Objects("", root));
  }

  lemma WalkBegins(root: seq<Item>)
    requires WellFormed(root)
    ensures Walk(root, [Pending("", root)], []) && Paths([Pending("", root)]) == [""]
  {
    assert [Pending("", root)][..0] == [];
  }

  lemma ServesIt(serve: (string, nat) -> Response, root: seq<Item>, work: seq<Pending>)
    requires Serves(serve, root) && InTree(root, work) && work != []
    ensures ServesFolder(serve, work[|work| - 1].path, Entries(work[|work| - 1].items))
  {
    assert work[|work| - 1] in work;
  }

  /** Lists every object of the bucket exactly once, sorted by path, whatever the folders' sizes; it fails
      only over its object limit or because the server did. */
  method ListObjects(serve: (string, nat) -> Response, ghost root: seq<Item>, maxObjects: int)
    returns (r: Result<seq<StorageObject>, Error>)
    requires WellFormed(root) && Serves(serve, root)
    ensures r == Err(BadLimit) <==> maxObjects < 1
    ensures r.Ok? ==> multiset(r.value) == Objects("", root) && SortedByPath(r.value) && |r.value| <= maxObjects
    ensures r.Err? && r.error != BadLimit && Faithful(serve) ==>
              r.error == TooManyObjects && |Objects("", root)| > maxObjects
  {
    if maxObjects < 1 { return Err(BadLimit); }
    var objects: seq<StorageObject>, pending := [], [""];
    ghost var work := [Pending("", root)];
    WalkBegins(root);
    while pending != []
      invariant Paths(work) == pending && Walk(root, work, objects) && |objects| <= maxObjects
      decreases AllWeight(work)
    {
      var prefix := pending[|pending| - 1];
      pending := pending[..|pending| - 1];
      ghost var all := Entries(work[|work| - 1].items);
      WalkStep(root, work, objects, prefix, all);
      ServesIt(serve, root, work);
      var found := ListFolder(serve, all, prefix, objects, pending, maxObjects);
      if found.Err? { return Err(found.error); }
      objects, pending, work := found.value.objects, found.value.pending, Onward(work);
    }
    return Ok(SortByPath(objects));
  }

  /** A complete sorted listing has every object exactly once, with strictly increasing paths. */
  lemma ListedOnce(root: seq<Item>, listed: seq<StorageObject>)
    requires WellFormed(root) && multiset(listed) == Objects("", root) && SortedByPath(listed)
    ensures forall o :: o in listed <==> o in Objects("", root)
    ensures forall i, j | 0 <= i < j < |listed| :: Less(listed[i].path, listed[j].path)
  {
    forall o: StorageObject
      ensures o in listed <==> o in Objects("", root)
    {
      assert o in listed <==> o in multiset(listed);
    }
    forall i, j | 0 <= i < j < |listed|
      ensures Less(listed[i].path, listed[j].path)
    {
      if listed[i].path == listed[j].path {
        PathsDistinct("", root, listed[i], listed[j]);
        Twice(listed, i, j);
      }
    }
  }

  lemma Twice<T>(xs: seq<T>, i: nat, j: nat)
    requires i < j < |xs| && xs[i] == xs[j]
    ensures multiset(xs)[xs[i]] >= 2
  {
    assert xs == xs[..j] + xs[j..];
    assert xs[i] in xs[..j] && xs[j] in xs[j..];
    assert multiset(xs[..j])[xs[i]] >= 1 && multiset(xs[j..])[xs[i]] >= 1;
  }

  // ---------------------------------------------------------------- reconciliation

  datatype Manifest = Manifest(path: string, bytes: nat)

  datatype Mismatch = Mismatch(path: string, manifestBytes: nat, storageBytes: nat)

  datatype Report = Report(
    missing: seq<string>,
    orphan: seq<string>,
    mismatches: seq<Mismatch>,
    manifestCount: nat,
    objectCount: nat,
    passed: bool)

  /** Python's dictionaries by path: of two rows with one path the later counts. */
  function Expected(manifests: seq<Manifest>): (m: map<string, nat>)
    ensures forall p :: p in m <==> exists i | 0 <= i < |manifests| :: manifests[i].path == p
  {
    if manifests == [] then map[]
    else Expected(manifests[..|manifests| - 1])[manifests[|manifests| - 1].path := manifests[|manifests| - 1].bytes]
  }

  function Actual(objects: seq<StorageObject>): (m: map<string, nat>)
    ensures forall p :: p in m <==> exists i | 0 <= i < |objects| :: objects[i].path == p
  {
    if objects == [] then map[]
    else Actual(objects[..|objects| - 1])[objects[|objects| - 1].path := objects[|objects| - 1].size]
  }

  function ManifestPaths(manifests: seq<Manifest>): (ps: seq<string>)
    ensures forall p :: p in ps <==> p in Expected(manifests)
  {
    var ps := seq(|manifests|, i requires 0 <= i < |manifests| => manifests[i].path);
    assert forall i | 0 <= i < |manifests| :: ps[i] == manifests[i].path;
    ps
  }

  function ObjectPaths(objects: seq<StorageObject>): (ps: seq<string>)
    ensures forall p :: p in ps <==> p in Actual(objects)
  {
    var ps := seq(|objects|, i requires 0 <= i < |objects| => objects[i].path);
    assert forall i | 0 <= i < |objects| :: ps[i] == objects[i].path;
    ps
  }

  /** Those of the paths that the map has, or has not. */
  function Among(ps: seq<string>, m: map<string, nat>, there: bool): (r: seq<string>)
    ensures forall p :: p in r <==> p in ps && (p in m <==> there)
    ensures Increasing(ps) ==> Increasing(r)
  {
    if ps == [] then []
    else
      var last := ps[|ps| - 1];
      var front := Among(ps[..|ps| - 1], m, there);
      assert forall p | p in ps :: p in ps[..|ps| - 1] || p == last;
      assert Increasing(ps) ==> forall p | p in front :: Less(p, last);
      front + if last in m <==> there then [last] else []
  }

  function Mismatches(ps: seq<string>, expected: map<string, nat>, actual: map<string, nat>): (r: seq<Mismatch>)
    requires forall p | p in ps :: p in expected && p in actual
    ensures forall x :: x in r <==>
                          && x.path in ps && expected[x.path] != actual[x.path]
                          && x.manifestBytes == expected[x.path] && x.storageBytes == actual[x.path]
    ensures Increasing(ps) ==> forall i, j | 0 <= i < j < |r| :: Less(r[i].path, r[j].path)
  {
    if ps == [] then []
    else
      var last := ps[|ps| - 1];
      var front := Mismatches(ps[..|ps| - 1], expected, actual);
      assert forall p | p in ps :: p in ps[..|ps| - 1] || p == last;
      assert Increasing(ps) ==> forall x | x in front :: Less(x.path, last);
      front + if expected[last] != actual[last] then [Mismatch(last, expected[last], actual[last])] else []
  }

  function Reconcile(manifests: seq<Manifest>, objects: seq<StorageObject>): Report {
    var expected, actual := Expected(manifests), Actual(objects);
    var missing := SortedSet(Among(ManifestPaths(manifests), actual, false));
    var orphan := SortedSet(Among(ObjectPaths(objects), expected, false));
    var mismatches := Mismatches(SortedSet(Among(ManifestPaths(manifests), actual, true)), expected, actual);
    Report(missing, orphan, mismatches, |manifests|, |objects|, missing == [] && orphan == [] && mismatches == [])
  }

  /** Every path is missing, orphaned, mismatched or agreeing by exactly these conditions, and each list is
      sorted without repetition. */
  ghost predicate Classifies(r: Report, e: map<string, nat>, a: map<string, nat>) {
    && (forall p :: p in r.missing <==> p in e && p !in a)
    && (forall p :: p in r.orphan <==> p in a && p !in e)
    && (forall x :: x in r.mismatches <==>
                      && x.path in e && x.path in a && e[x.path] != a[x.path]
                      && x.manifestBytes == e[x.path] && x.storageBytes == a[x.path])
    && Increasing(r.missing) && Increasing(r.orphan)
    && (forall i, j | 0 <= i < j < |r.mismatches| :: Less(r.mismatches[i].path, r.mismatches[j].path))
  }

  lemma ReconcileClassifies(manifests: seq<Manifest>, objects: seq<StorageObject>)
    ensures Classifies(Reconcile(manifests, objects), Expected(manifests), Actual(objects))
  {
  }

  lemma NothingListed(r: Report, e: map<string, nat>, a: map<string, nat>)
    requires Classifies(r, e, a)
    ensures r.missing == [] && r.orphan == [] && r.mismatches == [] <==> e == a
  {
    if r.missing == [] && r.orphan == [] && r.mismatches == [] {
      forall p | p in e || p in a
        ensures p in e && p in a && e[p] == a[p]
      {
        assert p !in r.missing && p !in r.orphan;
        assert p in e && p in a;
        assert Mismatch(p, e[p], a[p]) !in r.mismatches;
      }
      assert e.Keys == a.Keys;
    }
    if r.missing != [] { assert r.missing[0] in r.missing; }
    if r.orphan != [] { assert r.orphan[0] in r.orphan; }
    if r.mismatches != [] { assert r.mismatches[0] in r.mismatches; }
  }

  /** The reconciliation passes if and only if the two maps of path to size are equal. */
  lemma PassesIffEqual(manifests: seq<Manifest>, objects: seq<StorageObject>)
    ensures Reconcile(manifests, objects).passed <==> Expected(manifests) == Actual(objects)
  {
    ReconcileClassifies(manifests, objects);
    NothingListed(Reconcile(manifests, objects), Expected(manifests), Actual(objects));
  }

  /** The map of a complete listing is the bucket itself. */
  lemma {:induction false} ActualIsBucket(root: seq<Item>, listed: seq<StorageObject>)
    requires WellFormed(root) && multiset(listed) == Objects("", root) && SortedByPath(listed)
    ensures forall path, size: nat ::
              path in Actual(listed) && Actual(listed)[path] == size <==> StorageObject(path, size) in Objects("", root)
  {
    ListedOnce(root, listed);
    ActualAt(listed);
  }

  lemma {:induction false} ActualAt(listed: seq<StorageObject>)
    requires forall i, j | 0 <= i < j < |listed| :: Less(listed[i].path, listed[j].path)
    ensures forall path, size: nat ::
              path in Actual(listed) && Actual(listed)[path] == size <==> StorageObject(path, size) in listed
  {
    if listed != [] {
      var init, last := listed[..|listed| - 1], listed[|listed| - 1];
      ActualAt(init);
      forall o | o in init
        ensures o.path != last.path
      {
        Total(o.path, last.path);
      }
      assert listed == init + [last];
    }
  }

  /** Lists the bucket and reconciles it: it passes if and only if the manifests' map of path to size is the
      bucket's, and otherwise says which paths differ and how. */
  method ReconcileInventory(manifests: seq<Manifest>, serve: (string, nat) -> Response, ghost root: seq<Item>)
    returns (r: Result<Report, Error>)
    requires WellFormed(root) && Serves(serve, root)
    ensures r.Ok? ==>
              exists actual: map<string, nat> ::
                && (forall path, size: nat ::
                      path in actual && actual[path] == size <==> StorageObject(path, size) in Objects("", root))
                && Classifies(r.value, Expected(manifests), actual)
                && (r.value.passed <==> Expected(manifests) == actual)
                && r.value.manifestCount == |manifests| && r.value.objectCount == |Objects("", root)|
    ensures r.Err? && Faithful(serve) ==> |Objects("", root)| > 100_000
  {
    var objects := ListObjects(serve, root, 100_000);
    if objects.Err? { return Err(objects.error); }
    ActualIsBucket(root, objects.value);
    ReconcileClassifies(manifests, objects.value);
    PassesIffEqual(manifests, objects.value);
    assert |multiset(objects.value)| == |objects.value|;
    return Ok(Reconcile(manifests, objects.value));
  }
}
