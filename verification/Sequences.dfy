/** Sequence numbers in the timeline store: a cache per NPC id beside one file
    per path. */
module Sequences {
  import opened Common

  /** What of an event matters here: whose it is, its number, its name. */
  datatype Event = Event(npc: string, seqNo: int, name: string)

  type Alphabet = char -> bool

  /** Characters that are neither letters, digits nor one of `-_.` become `_`. */
  function Sanitized(npc: string, alphanumeric: Alphabet): (safe: string)
    ensures |safe| == |npc|
  {
    if npc == "" then ""
    else
      var c := npc[|npc| - 1];
      Sanitized(npc[..|npc| - 1], alphanumeric) +
      [if alphanumeric(c) || c == '-' || c == '_' || c == '.' then c else '_']
  }

  /** The file of an NPC id; some ids have none. */
  function PathOf(npc: string, alphanumeric: Alphabet): Option<string> {
    var name := Sanitized(npc, alphanumeric);
    if name == "" || name == "." || name == ".." then None else Some(name)
  }

  /** The largest number in a file, at least zero. */
  function MaxSeq(events: seq<Event>): int {
    if events == [] then 0
    else
      var before := MaxSeq(events[..|events| - 1]);
      if events[|events| - 1].seqNo > before then events[|events| - 1].seqNo else before
  }

  /** Files by path, and the cached number of each NPC id looked at so far. */
  datatype Shelf = Shelf(files: map<string, seq<Event>>, lastSeq: map<string, int>)
  {
    function File(path: string): seq<Event> {
      if path in files then files[path] else []
    }
  }

  datatype Op =
    | Peek(npc: string)
    | Append(event: Event)
    | Create(npc: string, name: string)
    | Delete(npc: string)
    | Reopen

  /** Looking a number up fills the cache. */
  function Cached(s: Shelf, npc: string, path: string): Shelf {
    if npc in s.lastSeq then s else s.(lastSeq := s.lastSeq[npc := MaxSeq(s.File(path))])
  }

  function Written(s: Shelf, event: Event, path: string): Shelf {
    var cached := Cached(s, event.npc, path);
    if event.name == "" then cached
    else
      var next := cached.lastSeq[event.npc] + 1;
      Shelf(cached.files[path := cached.File(path) + [event.(seqNo := next)]], cached.lastSeq[event.npc := next])
  }

  function Do(s: Shelf, op: Op, alphanumeric: Alphabet): Shelf {
    match op
    case Reopen => s.(lastSeq := map[])
    case Peek(npc) =>
      if npc !in s.lastSeq && PathOf(npc, alphanumeric).None? then s
      else if npc in s.lastSeq then s
      else Cached(s, npc, PathOf(npc, alphanumeric).value)
    case Append(event) =>
      if PathOf(event.npc, alphanumeric).None? then s
      else Written(s, event, PathOf(event.npc, alphanumeric).value)
    case Create(npc, name) =>
      if PathOf(npc, alphanumeric).None? then s
      else Written(s, Event(npc, 0, name), PathOf(npc, alphanumeric).value)
    case Delete(npc) =>
      if PathOf(npc, alphanumeric).None? then s
      else Shelf(s.files - {PathOf(npc, alphanumeric).value}, s.lastSeq - {npc})
  }

  // ---------------------------------------------------------------------
  // The store
  // ---------------------------------------------------------------------

  class Store {
    const alphanumeric: Alphabet
    var files: map<string, seq<Event>>
    var lastSeq: map<string, int>

    ghost function Contents(): Shelf
      reads this
    {
      Shelf(files, lastSeq)
    }

    /** Only ids that have a path are cached. */
    ghost predicate Valid()
      reads this
    {
      forall npc <- lastSeq :: PathOf(npc, alphanumeric).Some?
    }

    constructor (alphanumeric: Alphabet)
      ensures Valid() && Contents() == Shelf(map[], map[]) && this.alphanumeric == alphanumeric
    {
      this.alphanumeric := alphanumeric;
      files, lastSeq := map[], map[];
    }

    method PathFor(npc: string) returns (path: Option<string>)
      ensures path == PathOf(npc, alphanumeric)
    {
      var safe := "";
      for i := 0 to |npc|
        invariant safe == Sanitized(npc[..i], alphanumeric)
      {
        assert npc[..i + 1][..i] == npc[..i];
        var c := npc[i];
        if alphanumeric(c) || c == '-' || c == '_' || c == '.' {
          safe := safe + [c];
        } else {
          safe := safe + ['_'];
        }
      }
      assert npc[..|npc|] == npc;
      if safe == "" || safe == "." || safe == ".." {
        return None;
      }
      path := Some(safe);
    }

    /** The largest number in a file, by a scan of it. */
    method ScanLast(path: string) returns (last: int)
      ensures last == MaxSeq(Contents().File(path))
    {
      last := 0;
      if path in files {
        var events := files[path];
        for i := 0 to |events|
          invariant last == MaxSeq(events[..i])
        {
          assert events[..i + 1][..i] == events[..i];
          if events[i].seqNo > last {
            last := events[i].seqNo;
          }
        }
        assert events[..|events|] == events;
      }
    }

    method NextSeqLocked(npc: string) returns (next: Option<int>)
      requires Valid()
      modifies this`lastSeq
      ensures Valid() && Contents() == Do(old(Contents()), Peek(npc), alphanumeric)
      ensures next.None? <==> PathOf(npc, alphanumeric).None?
      ensures next.Some? ==> npc in lastSeq && next.value == lastSeq[npc] + 1
    {
      if npc in lastSeq {
        return Some(lastSeq[npc] + 1);
      }
      var path := PathFor(npc);
      if path.None? {
        return None;
      }
      var last := ScanLast(path.value);
      lastSeq := lastSeq[npc := last];
      next := Some(last + 1);
    }

    /** A wrong number is repaired; an event without a name is refused. */
    method AppendLocked(event: Event) returns (written: Option<Event>)
      requires Valid()
      modifies this
      ensures Valid() && Contents() == Do(old(Contents()), Append(event), alphanumeric)
      ensures written.Some? <==> PathOf(event.npc, alphanumeric).Some? && event.name != ""
      ensures written.Some? ==> written.value == event.(seqNo := lastSeq[event.npc])
    {
      var path := PathFor(event.npc);
      if path.None? {
        return None;
      }
      var expected := NextSeqLocked(event.npc);
      if event.name == "" {
        return None;
      }
      var repaired := event;
      if event.seqNo != expected.value {
        repaired := event.(seqNo := expected.value);
      }
      var before := if path.value in files then files[path.value] else [];
      files := files[path.value := before + [repaired]];
      lastSeq := lastSeq[event.npc := repaired.seqNo];
      written := Some(repaired);
    }

    /** Creates an event under the next number and appends it. */
    method AppendEvent(npc: string, name: string) returns (written: Option<Event>)
      requires Valid()
      modifies this
      ensures Valid() && Contents() == Do(old(Contents()), Create(npc, name), alphanumeric)
    {
      var next := NextSeqLocked(npc);
      if next.None? {
        return None;
      }
      written := AppendLocked(Event(npc, next.value, name));
    }

    method DeleteTimeline(npc: string)
      requires Valid()
      modifies this
      ensures Valid() && Contents() == Do(old(Contents()), Delete(npc), alphanumeric)
    {
      var path := PathFor(npc);
      if path.None? {
        return;
      }
      files := map p | p in files && p != path.value :: files[p];
      lastSeq := map n | n in lastSeq && n != npc :: lastSeq[n];
      assert files == old(files) - {path.value} && lastSeq == old(lastSeq) - {npc};
    }
  }

  // ---------------------------------------------------------------------
  // The cache tells the truth
  // ---------------------------------------------------------------------

  function Done(s: Shelf, ops: seq<Op>, alphanumeric: Alphabet): Shelf {
    if ops == [] then s else Do(Done(s, ops[..|ops| - 1], alphanumeric), ops[|ops| - 1], alphanumeric)
  }

  /** The NPC id an operation is about. */
  function Subject(op: Op): Option<string> {
    match op
    case Peek(npc) => Some(npc)
    case Append(event) => Some(event.npc)
    case Create(npc, _) => Some(npc)
    case Delete(npc) => Some(npc)
    case Reopen => None
  }

  ghost predicate About(op: Op, ids: set<string>) {
    Subject(op).Some? ==> Subject(op).value in ids
  }

  /** No two of the ids share a file. */
  ghost predicate DistinctPaths(ids: set<string>, alphanumeric: Alphabet) {
    forall a, b ::
      (a in ids && b in ids && PathOf(a, alphanumeric).Some? && PathOf(a, alphanumeric) == PathOf(b, alphanumeric))
      ==> a == b
  }

  /** Every cached number is the largest in its file. */
  ghost predicate CacheTrue(s: Shelf, ids: set<string>, alphanumeric: Alphabet) {
    forall npc <- s.lastSeq ::
      && npc in ids && PathOf(npc, alphanumeric).Some?
      && s.lastSeq[npc] == MaxSeq(s.File(PathOf(npc, alphanumeric).value))
  }

  lemma MaxSeqAppends(events: seq<Event>, event: Event)
    ensures MaxSeq(events + [event]) == if event.seqNo > MaxSeq(events) then event.seqNo else MaxSeq(events)
  {
    assert (events + [event])[..|events|] == events;
  }

  lemma CachingKeepsTruth(s: Shelf, ids: set<string>, npc: string, alphanumeric: Alphabet)
    requires CacheTrue(s, ids, alphanumeric) && npc in ids && PathOf(npc, alphanumeric).Some?
    ensures var r := Cached(s, npc, PathOf(npc, alphanumeric).value);
            CacheTrue(r, ids, alphanumeric) && r.files == s.files && npc in r.lastSeq
  {
  }

  lemma WritingKeepsTruth(s: Shelf, ids: set<string>, event: Event, alphanumeric: Alphabet)
    requires DistinctPaths(ids, alphanumeric) && CacheTrue(s, ids, alphanumeric)
    requires event.npc in ids && PathOf(event.npc, alphanumeric).Some?
    ensures CacheTrue(Written(s, event, PathOf(event.npc, alphanumeric).value), ids, alphanumeric)
  {
    var path := PathOf(event.npc, alphanumeric).value;
    var cached := Cached(s, event.npc, path);
    CachingKeepsTruth(s, ids, event.npc, alphanumeric);
    MaxSeqAppends(cached.File(path), event.(seqNo := cached.lastSeq[event.npc] + 1));
  }

  lemma DeletingKeepsTruth(s: Shelf, ids: set<string>, npc: string, alphanumeric: Alphabet)
    requires DistinctPaths(ids, alphanumeric) && CacheTrue(s, ids, alphanumeric) && npc in ids
    ensures CacheTrue(Do(s, Delete(npc), alphanumeric), ids, alphanumeric)
  {
  }

  /** Whatever is appended, deleted or reopened, in whatever order and with
      whatever incoming numbers: as long as the ids in use have files of their
      own, every cached number is the largest in its file. */
  lemma {:induction false} CacheStaysTrue(files: map<string, seq<Event>>, ops: seq<Op>, ids: set<string>, alphanumeric: Alphabet)
    requires DistinctPaths(ids, alphanumeric) && forall op <- ops :: About(op, ids)
    ensures CacheTrue(Done(Shelf(files, map[]), ops, alphanumeric), ids, alphanumeric)
  {
    if ops != [] {
      var front, last := ops[..|ops| - 1], ops[|ops| - 1];
      assert last in ops && forall op <- front :: op in ops;
      CacheStaysTrue(files, front, ids, alphanumeric);
      var s := Done(Shelf(files, map[]), front, alphanumeric);
      if Subject(last).Some? && PathOf(Subject(last).value, alphanumeric).Some? {
        match last {
          case Peek(npc) => CachingKeepsTruth(s, ids, npc, alphanumeric);
          case Append(event) => WritingKeepsTruth(s, ids, event, alphanumeric);
          case Create(npc, name) => WritingKeepsTruth(s, ids, Event(npc, 0, name), alphanumeric);
          case Delete(npc) => DeletingKeepsTruth(s, ids, npc, alphanumeric);
        }
      }
    }
  }

  // ---------------------------------------------------------------------
  // Files are numbered 1, 2, 3, ...
  // ---------------------------------------------------------------------

  predicate Numbered(events: seq<Event>) {
    forall k :: 0 <= k < |events| ==> events[k].seqNo == k + 1
  }

  ghost predicate AllNumbered(s: Shelf) {
    forall path <- s.files :: Numbered(s.files[path])
  }

  lemma {:induction false} NumberedMax(events: seq<Event>)
    requires Numbered(events)
    ensures MaxSeq(events) == |events|
  {
    if events != [] {
      NumberedMax(events[..|events| - 1]);
    }
  }

  lemma WritingKeepsNumbers(s: Shelf, ids: set<string>, event: Event, alphanumeric: Alphabet)
    requires CacheTrue(s, ids, alphanumeric) && AllNumbered(s)
    requires event.npc in ids && PathOf(event.npc, alphanumeric).Some?
    ensures AllNumbered(Written(s, event, PathOf(event.npc, alphanumeric).value))
  {
    var path := PathOf(event.npc, alphanumeric).value;
    CachingKeepsTruth(s, ids, event.npc, alphanumeric);
    NumberedMax(s.File(path));
  }

  lemma {:induction false} FilesStayNumbered(ops: seq<Op>, ids: set<string>, alphanumeric: Alphabet)
    requires DistinctPaths(ids, alphanumeric) && forall op <- ops :: About(op, ids)
    ensures AllNumbered(Done(Shelf(map[], map[]), ops, alphanumeric))
  {
    if ops != [] {
      var front, last := ops[..|ops| - 1], ops[|ops| - 1];
      assert last in ops && forall op <- front :: op in ops;
      FilesStayNumbered(front, ids, alphanumeric);
      CacheStaysTrue(map[], front, ids, alphanumeric);
      var s := Done(Shelf(map[], map[]), front, alphanumeric);
      if Subject(last).Some? && PathOf(Subject(last).value, alphanumeric).Some? {
        match last {
          case Append(event) => WritingKeepsNumbers(s, ids, event, alphanumeric);
          case Create(npc, name) => WritingKeepsNumbers(s, ids, Event(npc, 0, name), alphanumeric);
          case _ =>
        }
      }
    }
  }

  /** Two ids that share a file confuse the cache: the third of three appends
      repeats the second's number. */
  lemma SharingBreaksNumbers(a: string, b: string, name: string, alphanumeric: Alphabet)
    requires a != b && PathOf(a, alphanumeric).Some? && PathOf(a, alphanumeric) == PathOf(b, alphanumeric) && name != ""
    ensures var ops := [Create(a, name), Create(b, name), Create(a, name)];
            var r := Done(Shelf(map[], map[]), ops, alphanumeric);
            && PathOf(a, alphanumeric).value in r.files
            && r.files[PathOf(a, alphanumeric).value] == [Event(a, 1, name), Event(b, 2, name), Event(a, 2, name)]
            && !AllNumbered(r)
  {
    var path := PathOf(a, alphanumeric).value;
    var empty := Shelf(map[], map[]);
    ThreeOps(empty, Create(a, name), Create(b, name), Create(a, name), alphanumeric);
    var s1 := Do(empty, Create(a, name), alphanumeric);
    Appending(empty, a, name, alphanumeric);
    assert s1.File(path) == [Event(a, 1, name)];
    MaxSeqAppends([], Event(a, 1, name));
    var s2 := Do(s1, Create(b, name), alphanumeric);
    Appending(s1, b, name, alphanumeric);
    assert s2.File(path) == [Event(a, 1, name), Event(b, 2, name)];
    Appending(s2, a, name, alphanumeric);
    var s3 := Do(s2, Create(a, name), alphanumeric);
    assert s3.files[path] == [Event(a, 1, name), Event(b, 2, name), Event(a, 2, name)];
    assert !Numbered(s3.files[path]) by {
      assert s3.files[path][2].seqNo == 2;
    }
  }

  lemma ThreeOps(s: Shelf, x: Op, y: Op, z: Op, alphanumeric: Alphabet)
    ensures Done(s, [x, y, z], alphanumeric) == Do(Do(Do(s, x, alphanumeric), y, alphanumeric), z, alphanumeric)
  {
    var one, two, three := [x], [x, y], [x, y, z];
    assert one[..0] == [] && two[..1] == one && three[..2] == two;
    assert Done(s, [], alphanumeric) == s;
    assert Done(s, one, alphanumeric) == Do(s, x, alphanumeric);
    assert Done(s, two, alphanumeric) == Do(Do(s, x, alphanumeric), y, alphanumeric);
  }

  /** One append: the next number after the cached or scanned one. */
  lemma Appending(s: Shelf, npc: string, name: string, alphanumeric: Alphabet)
    requires PathOf(npc, alphanumeric).Some? && name != ""
    ensures var path := PathOf(npc, alphanumeric).value;
            var last := if npc in s.lastSeq then s.lastSeq[npc] else MaxSeq(s.File(path));
            var r := Do(s, Create(npc, name), alphanumeric);
            && path in r.files && r.File(path) == s.File(path) + [Event(npc, last + 1, name)]
            && r.lastSeq == s.lastSeq[npc := last + 1]
  {
  }

  /** Every run over these ids numbers every file 1, 2, 3, ... */
  ghost predicate AlwaysNumbered(ids: set<string>, alphanumeric: Alphabet) {
    forall ops: seq<Op> :: (forall op <- ops :: About(op, ids)) ==>
      AllNumbered(Done(Shelf(map[], map[]), ops, alphanumeric))
  }

  /** Starting from no files, the k-th event of every file has number k in every
      run over a set of ids exactly when no two of the ids share a file. */
  lemma NumberingIsExact(ids: set<string>, alphanumeric: Alphabet)
    ensures AlwaysNumbered(ids, alphanumeric) <==> DistinctPaths(ids, alphanumeric)
  {
    if DistinctPaths(ids, alphanumeric) {
      forall ops: seq<Op> | forall op <- ops :: About(op, ids)
        ensures AllNumbered(Done(Shelf(map[], map[]), ops, alphanumeric))
      {
        FilesStayNumbered(ops, ids, alphanumeric);
      }
    } else {
      var a, b :| a in ids && b in ids && PathOf(a, alphanumeric).Some? &&
                  PathOf(a, alphanumeric) == PathOf(b, alphanumeric) && a != b;
      SharingBreaksNumbers(a, b, "e", alphanumeric);
      var ops := [Create(a, "e"), Create(b, "e"), Create(a, "e")];
      assert forall op <- ops :: About(op, ids);
    }
  }
}
