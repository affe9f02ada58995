/**
 The workspace transition: a frozen baseline of paths, a generator that records every difference from it, and a
 validator that accepts a recorded transition only in the workspace it describes.
 */
module WorkspaceTransition {
  import opened Prelude

  /** Paths, numbered in their string order. */
  type Path = nat

  datatype FileType = Regular | Missing | OtherType

  /** `state_fields`; the digest is injective on contents. */
  datatype FileState = FileState(fileType: FileType, mode: Option<nat>, size: nat, sha: Option<string>)

  const ABSENT := FileState(Missing, None, 0, None)

  datatype Node = File(mode: nat, content: string) | Irregular

  type Workspace = map<Path, Node>

  /** `entry`; `None` where it raises. */
  function Current(ws: Workspace, path: Path): Option<FileState> {
    if path !in ws then Some(ABSENT)
    else match ws[path]
      case File(mode, content) => Some(FileState(Regular, Some(mode), |content|, Some(content)))
      case Irregular => None
  }

  datatype Group = Protected | Incidental | Prerequisite

  datatype Item = Item(group: Group, path: Path, state: FileState)

  /** The baseline as its items, group after group. */
  datatype Baseline = Baseline(items: seq<Item>, receipt: nat)

  datatype Entry = Entry(path: Path, group: Group, before: FileState, after: FileState, grounds: bool,
                         deletion: Option<bool>)

  /** `baseline` stands for the two digests that bind the manifest to the baseline. */
  datatype Manifest = Manifest(schema: bool, baseline: Baseline, frozenCount: nat, entryCount: nat, entries: seq<Entry>)

  datatype Receipt = Receipt(manifest: Manifest, frozenCount: nat, entryCount: nat, changed: map<Group, nat>,
                             same: map<Group, nat>, deleted: nat, passed: bool)

  // ----- Counting -----

  predicate Readable(items: seq<Item>, ws: Workspace) {
    forall item <- items :: Current(ws, item.path).Some?
  }

  predicate Same(item: Item, ws: Workspace) {
    Current(ws, item.path) == Some(item.state)
  }

  predicate Deleted(item: Item, ws: Workspace) {
    item.state.fileType.Regular? && Current(ws, item.path) == Some(ABSENT)
  }

  function Count(items: seq<Item>, ws: Workspace, group: Group, same: bool): nat {
    if items == [] then 0
    else
      var n := |items| - 1;
      Count(items[..n], ws, group, same) + if items[n].group == group && Same(items[n], ws) == same then 1 else 0
  }

  function CountDeleted(items: seq<Item>, ws: Workspace): nat {
    if items == [] then 0
    else
      var n := |items| - 1;
      CountDeleted(items[..n], ws) + if Deleted(items[n], ws) then 1 else 0
  }

  function CountAll(items: seq<Item>, ws: Workspace, same: bool): map<Group, nat> {
    map[Protected := Count(items, ws, Protected, same), Incidental := Count(items, ws, Incidental, same),
        Prerequisite := Count(items, ws, Prerequisite, same)]
  }

  function Bumped(counts: map<Group, nat>, group: Group): map<Group, nat> {
    counts[group := 1 + if group in counts then counts[group] else 0]
  }

  lemma CountOneMore(items: seq<Item>, i: nat, ws: Workspace, same: bool)
    requires i < |items|
    ensures var before := CountAll(items[..i], ws, same);
            CountAll(items[..i + 1], ws, same) == if Same(items[i], ws) == same then Bumped(before, items[i].group)
                else before
  {
    assert items[..i + 1][..i] == items[..i];
    var before, after := CountAll(items[..i], ws, same), CountAll(items[..i + 1], ws, same);
    var expected := if Same(items[i], ws) == same then Bumped(before, items[i].group) else before;
    forall g: Group ensures g in after && g in expected && after[g] == expected[g] {
      assert g == Protected || g == Incidental || g == Prerequisite;
    }
  }

  function Total(counts: map<Group, nat>): nat
    requires Protected in counts && Incidental in counts && Prerequisite in counts
  {
    counts[Protected] + counts[Incidental] + counts[Prerequisite]
  }

  // ----- The generator -----

  function EntryFor(item: Item, after: FileState): Entry {
    Entry(item.path, item.group, item.state, after, true, Some(after.fileType == Missing))
  }

  /** The differences, in the order of the baseline. */
  function Changes(items: seq<Item>, ws: Workspace): seq<Entry>
    requires Readable(items, ws)
  {
    if items == [] then []
    else
      var n := |items| - 1;
      assert items[n] in items;
      Changes(items[..n], ws) +
      if Same(items[n], ws) then [] else [EntryFor(items[n], Current(ws, items[n].path).value)]
  }

  predicate SortedByPath(entries: seq<Entry>) {
    forall i, j :: 0 <= i < j < |entries| ==> entries[i].path <= entries[j].path
  }

  function CountGone(entries: seq<Entry>): nat {
    if entries == [] then 0
    else CountGone(entries[..|entries| - 1]) + if entries[|entries| - 1].after.fileType.Missing? then 1 else 0
  }

  /** What the generator writes for a readable workspace. */
  ghost predicate Generated(b: Baseline, ws: Workspace, m: Manifest, r: Receipt) {
    && Readable(b.items, ws)
    && m == Manifest(true, b, |b.items|, |m.entries|, m.entries)
    && SortedByPath(m.entries) && multiset(m.entries) == multiset(Changes(b.items, ws))
    && r == Receipt(m, |b.items|, |m.entries|, CountAll(b.items, ws, false), CountAll(b.items, ws, true),
                    CountGone(Changes(b.items, ws)), true)
  }

  method Insert(entries: seq<Entry>, e: Entry) returns (sorted: seq<Entry>)
    requires SortedByPath(entries)
    ensures SortedByPath(sorted) && multiset(sorted) == multiset(entries) + multiset{e}
  {
    var i := |entries|;
    while i > 0 && entries[i - 1].path > e.path
      invariant 0 <= i <= |entries| && forall k :: i <= k < |entries| ==> entries[k].path > e.path
    {
      i := i - 1;
    }
    sorted := entries[..i] + [e] + entries[i..];
    Inserted(entries, i, e);
    InsertedBag(entries, i, e);
  }

  lemma Inserted(entries: seq<Entry>, i: nat, e: Entry)
    requires i <= |entries| && SortedByPath(entries)
    requires (forall k :: i <= k < |entries| ==> entries[k].path > e.path) && (i > 0 ==> entries[i - 1].path <= e.path)
    ensures SortedByPath(entries[..i] + [e] + entries[i..])
  {
    var head, tail := entries[..i], entries[i..];
    SortedPart(entries, 0, i);
    SortedPart(entries, i, |entries|);
    forall k | 0 <= k < i ensures head[k].path <= e.path {
      assert entries[k].path <= entries[i - 1].path;
    }
    SortedJoin(head, [e]);
    forall j, k | 0 <= j < |head + [e]| && 0 <= k < |tail| ensures (head + [e])[j].path <= tail[k].path {
      if j < i { assert entries[j].path <= entries[i + k].path; }
    }
    SortedJoin(head + [e], tail);
  }

  lemma SortedPart(entries: seq<Entry>, i: nat, k: nat)
    requires i <= k <= |entries| && SortedByPath(entries)
    ensures SortedByPath(entries[i..k])
  {
  }

  lemma InsertedBag(entries: seq<Entry>, i: nat, e: Entry)
    requires i <= |entries|
    ensures multiset(entries[..i] + [e] + entries[i..]) == multiset(entries) + multiset{e}
  {
    assert entries == entries[..i] + entries[i..];
  }

  lemma SortedJoin(a: seq<Entry>, b: seq<Entry>)
    requires SortedByPath(a) && SortedByPath(b)
    requires forall j, k :: 0 <= j < |a| && 0 <= k < |b| ==> a[j].path <= b[k].path
    ensures SortedByPath(a + b)
  {
  }

  /** `entries.sort`. */
  method SortByPath(entries: seq<Entry>) returns (sorted: seq<Entry>)
    ensures SortedByPath(sorted) && multiset(sorted) == multiset(entries)
  {
    sorted := [];
    for i := 0 to |entries|
      invariant SortedByPath(sorted) && multiset(sorted) == multiset(entries[..i])
    {
      assert entries[..i + 1] == entries[..i] + [entries[i]];
      sorted := Insert(sorted, entries[i]);
    }
    assert entries[..|entries|] == entries;
  }

  datatype Tally = Tally(entries: seq<Entry>, changed: map<Group, nat>, same: map<Group, nat>, gone: nat)

  function TallyOf(items: seq<Item>, ws: Workspace): Tally
    requires Readable(items, ws)
  {
    Tally(Changes(items, ws), CountAll(items, ws, false), CountAll(items, ws, true), CountGone(Changes(items, ws)))
  }

  lemma ReadableMore(items: seq<Item>, i: nat, ws: Workspace)
    requires i < |items| && Readable(items[..i], ws)
    ensures Readable(items[..i + 1], ws) <==> Current(ws, items[i].path).Some?
    ensures Current(ws, items[i].path).None? ==> !Readable(items, ws)
  {
    assert items[..i + 1] == items[..i] + [items[i]] && items[i] in items[..i + 1] && items[i] in items;
  }

  lemma TallyMore(items: seq<Item>, i: nat, ws: Workspace)
    requires i < |items| && Readable(items[..i], ws) && Readable(items[..i + 1], ws) && Current(ws, items[i].path).Some?
    ensures var t, item := TallyOf(items[..i], ws), items[i];
            TallyOf(items[..i + 1], ws) ==
              if Same(item, ws) then t.(same := Bumped(t.same, item.group))
              else
                var e := EntryFor(item, Current(ws, item.path).value);
                Tally(t.entries + [e], Bumped(t.changed, item.group), t.same, t.gone + if e.after.fileType.Missing?
                      then 1 else 0)
  {
    assert items[..i + 1][..i] == items[..i];
    CountOneMore(items, i, ws, true);
    CountOneMore(items, i, ws, false);
    var before, e := Changes(items[..i], ws), EntryFor(items[i], Current(ws, items[i].path).value);
    assert (before + [e])[..|before|] == before;
    assert before + [] == before;
  }

  /** `build_transition`; `None` where reading a path raises. */
  method BuildTransition(b: Baseline, ws: Workspace) returns (built: Option<(Manifest, Receipt)>)
    ensures built.Some? <==> Readable(b.items, ws)
    ensures built.Some? ==> Generated(b, ws, built.value.0, built.value.1)
  {
    var entries: seq<Entry> := [];
    var changed := map[Protected := 0, Incidental := 0, Prerequisite := 0];
    var same := map[Protected := 0, Incidental := 0, Prerequisite := 0];
    var gone := 0;
    for i := 0 to |b.items|
      invariant Readable(b.items[..i], ws)
      invariant TallyOf(b.items[..i], ws) == Tally(entries, changed, same, gone)
    {
      var item := b.items[i];
      var current := Current(ws, item.path);
      ReadableMore(b.items, i, ws);
      if current.None? { return None; }
      TallyMore(b.items, i, ws);
      if current.value == item.state {
        same := Bumped(same, item.group);
      } else {
        changed := Bumped(changed, item.group);
        entries := entries + [EntryFor(item, current.value)];
        if current.value.fileType.Missing? { gone := gone + 1; }
      }
    }
    assert b.items[..|b.items|] == b.items;
    var sorted := SortByPath(entries);
    assert |sorted| == |multiset(sorted)| == |multiset(entries)| == |entries|;
    var m := Manifest(true, b, |b.items|, |sorted|, sorted);
    built := Some((m, Receipt(m, |b.items|, |sorted|, changed, same, gone, true)));
  }

  // ----- The validator -----

  predicate DistinctItems(items: seq<Item>) {
    forall i, j :: 0 <= i < j < |items| ==> items[i].path != items[j].path
  }

  predicate DistinctEntries(entries: seq<Entry>) {
    forall i, j :: 0 <= i < j < |entries| ==> entries[i].path != entries[j].path
  }

  predicate Frozen(items: seq<Item>, path: Path) {
    exists item <- items :: item.path == path
  }

  predicate Recorded(entries: seq<Entry>, path: Path) {
    exists e <- entries :: e.path == path
  }

  /** What the entries must say about one frozen path. */
  predicate Explained(entries: seq<Entry>, item: Item, ws: Workspace) {
    && Current(ws, item.path).Some?
    && if Same(item, ws) then !Recorded(entries, item.path)
       else exists e <- entries ::
              && e.path == item.path && e.group == item.group && e.before == item.state
              && e.after == Current(ws, item.path).value && e.deletion == Some(Deleted(item, ws))
  }

  /** When a transition is accepted, with `size` the fixed number of frozen paths. */
  predicate Accepts(size: nat, b: Baseline, ws: Workspace, m: Manifest, r: Receipt) {
    && m.schema && m.baseline == b
    && DistinctItems(b.items) && |b.items| == size == m.frozenCount
    && m.entryCount == |m.entries| && DistinctEntries(m.entries)
    && (forall e <- m.entries :: Frozen(b.items, e.path) && e.grounds)
    && (forall item <- b.items :: Explained(m.entries, item, ws))
    && |m.entries| == Total(CountAll(b.items, ws, false))
    && r == Receipt(m, size, |m.entries|, CountAll(b.items, ws, false), CountAll(b.items, ws, true),
                    CountDeleted(b.items, ws), true)
  }

  /** `validate_transition`. */
  method ValidateTransition(size: nat, b: Baseline, ws: Workspace, m: Manifest, r: Receipt) returns (ok: bool)
    ensures ok == Accepts(size, b, ws, m, r)
  {
    if !m.schema || m.baseline != b { return false; }
    var frozen := FrozenPaths(b.items);
    if frozen.None? || |b.items| != size || m.frozenCount != |b.items| { return false; }
    if m.entryCount != |m.entries| { return false; }
    var byPath := IndexEntries(m.entries, frozen.value);
    if byPath.None? { return false; }
    var explained, changed, same, deleted := CheckItems(b.items, ws, m.entries, byPath.value);
    if !explained || |m.entries| != changed[Protected] + changed[Incidental] + changed[Prerequisite] { return false; }
    ok := r == Receipt(m, |b.items|, |m.entries|, changed, same, deleted, true);
  }

  method CheckItems(items: seq<Item>, ws: Workspace, ghost entries: seq<Entry>, byPath: map<Path, Entry>)
    returns (ok: bool, changed: map<Group, nat>, same: map<Group, nat>, deleted: nat)
    requires DistinctEntries(entries) && forall p :: p in byPath <==> Recorded(entries, p)
    requires forall p <- byPath :: byPath[p] in entries && byPath[p].path == p
    ensures ok <==> forall item <- items :: Explained(entries, item, ws)
    ensures ok ==> changed == CountAll(items, ws, false) && same == CountAll(items, ws, true)
    ensures ok ==> deleted == CountDeleted(items, ws)
  {
    changed := map[Protected := 0, Incidental := 0, Prerequisite := 0];
    same := map[Protected := 0, Incidental := 0, Prerequisite := 0];
    deleted := 0;
    for i := 0 to |items|
      invariant forall k :: 0 <= k < i ==> Explained(entries, items[k], ws)
      invariant changed == CountAll(items[..i], ws, false) && same == CountAll(items[..i], ws, true)
      invariant deleted == CountDeleted(items[..i], ws)
    {
      var item := items[i];
      assert items[..i + 1][..i] == items[..i] && item in items;
      CountOneMore(items, i, ws, true);
      CountOneMore(items, i, ws, false);
      var explained, kept, gone := CheckItem(item, Current(ws, item.path), entries, byPath, ws);
      if !explained { return false, changed, same, deleted; }
      if kept { same := Bumped(same, item.group); } else { changed := Bumped(changed, item.group); }
      if gone { deleted := deleted + 1; }
    }
    assert items[..|items|] == items;
    ok := true;
  }

  method CheckItem(item: Item, current: Option<FileState>, ghost entries: seq<Entry>, byPath: map<Path, Entry>,
                   ghost ws: Workspace)
    returns (ok: bool, kept: bool, gone: bool)
    requires current == Current(ws, item.path) && DistinctEntries(entries)
    requires forall p :: p in byPath <==> Recorded(entries, p)
    requires forall p <- byPath :: byPath[p] in entries && byPath[p].path == p
    ensures ok == Explained(entries, item, ws)
    ensures ok ==> kept == Same(item, ws) && gone == Deleted(item, ws)
  {
    if current.None? { return false, false, false; }
    if current.value == item.state { return item.path !in byPath, true, false; }
    if item.path !in byPath { return false, false, false; }
    var e := byPath[item.path];
    gone := item.state.fileType.Regular? && current.value.fileType.Missing?;
    OnlyOne(entries, e);
    ok := e.group == item.group && e.before == item.state && e.after == current.value && e.deletion == Some(gone);
    kept := false;
  }

  method FrozenPaths(items: seq<Item>) returns (paths: Option<set<Path>>)
    ensures paths.Some? <==> DistinctItems(items)
    ensures paths.Some? ==> forall p :: p in paths.value <==> Frozen(items, p)
  {
    var seen: set<Path> := {};
    for i := 0 to |items|
      invariant DistinctItems(items[..i])
      invariant forall p :: p in seen <==> exists k :: 0 <= k < i && items[k].path == p
    {
      if items[i].path in seen { return None; }
      seen := seen + {items[i].path};
    }
    assert items[..|items|] == items;
    paths := Some(seen);
  }

  method IndexEntries(entries: seq<Entry>, frozen: set<Path>) returns (byPath: Option<map<Path, Entry>>)
    ensures byPath.Some? <==> DistinctEntries(entries) && forall e <- entries :: e.path in frozen && e.grounds
    ensures byPath.Some? ==>
              && (forall p :: p in byPath.value <==> Recorded(entries, p))
              && forall p <- byPath.value :: byPath.value[p] in entries && byPath.value[p].path == p
  {
    var index: map<Path, Entry> := map[];
    for i := 0 to |entries|
      invariant DistinctEntries(entries[..i]) && forall k :: 0 <= k < i ==>
                  entries[k].path in frozen && entries[k].grounds
      invariant forall p :: p in index <==> exists k :: 0 <= k < i && entries[k].path == p
      invariant forall p <- index :: index[p] in entries && index[p].path == p
    {
      var e := entries[i];
      assert e in entries;
      if e.path in index || e.path !in frozen || !e.grounds { return None; }
      index := index[e.path := e];
    }
    assert entries[..|entries|] == entries;
    byPath := Some(index);
  }

  lemma OnlyOne(entries: seq<Entry>, e: Entry)
    requires DistinctEntries(entries) && e in entries
    ensures forall f <- entries :: f.path == e.path ==> f == e
  {
  }

  // ----- Agreement -----

  /** A frozen path that is now absent was frozen as a regular file, or exactly as absent. */
  predicate PlainDeletions(items: seq<Item>, ws: Workspace) {
    forall item <- items :: Current(ws, item.path) == Some(ABSENT) ==>
        item.state.fileType.Regular? || item.state == ABSENT
  }

  lemma {:induction false} ChangesContain(items: seq<Item>, ws: Workspace)
    requires Readable(items, ws)
    ensures forall e :: e in Changes(items, ws) <==>
              exists item <- items :: !Same(item, ws) && e == EntryFor(item, Current(ws, item.path).value)
  {
    if items != [] {
      var n := |items| - 1;
      ChangesContain(items[..n], ws);
      assert items == items[..n] + [items[n]];
    }
  }

  lemma {:induction false} ChangesCounted(items: seq<Item>, ws: Workspace)
    requires Readable(items, ws)
    ensures |Changes(items, ws)| == Total(CountAll(items, ws, false))
  {
    if items != [] {
      var n := |items| - 1;
      assert items == items[..n] + [items[n]];
      ChangesCounted(items[..n], ws);
    }
  }

  lemma {:induction false} ChangesDistinct(items: seq<Item>, ws: Workspace)
    requires Readable(items, ws) && DistinctItems(items)
    ensures DistinctEntries(Changes(items, ws))
  {
    if items != [] {
      var n := |items| - 1;
      assert items == items[..n] + [items[n]];
      ChangesDistinct(items[..n], ws);
      ChangesContain(items[..n], ws);
      forall e | e in Changes(items[..n], ws) ensures e.path != items[n].path {
        var item :| item in items[..n] && e == EntryFor(item, Current(ws, item.path).value);
      }
    }
  }

  lemma {:induction false} GoneCounted(items: seq<Item>, ws: Workspace)
    requires Readable(items, ws) && PlainDeletions(items, ws)
    ensures CountGone(Changes(items, ws)) == CountDeleted(items, ws)
  {
    if items != [] {
      var n := |items| - 1;
      var last := items[n];
      assert items == items[..n] + [last] && last in items;
      GoneCounted(items[..n], ws);
      assert Current(ws, last.path).value.fileType.Missing? <==> Current(ws, last.path) == Some(ABSENT);
      TallyMore(items, n, ws);
      assert items[..n + 1] == items;
    }
  }

  lemma {:induction false} DistinctByBag(a: seq<Entry>, b: seq<Entry>)
    requires multiset(a) == multiset(b) && DistinctEntries(a)
    ensures DistinctEntries(b)
  {
    forall i, j | 0 <= i < j < |b| ensures b[i].path != b[j].path {
      if b[i].path == b[j].path {
        assert b[i] in multiset(b) && b[j] in multiset(b);
        OnlyOne(a, b[i]);
        assert b[i] == b[j];
        Twice(b, i, j);
        Once(a, b[i]);
      }
    }
  }

  lemma Twice(s: seq<Entry>, i: nat, j: nat)
    requires i < j < |s| && s[i] == s[j]
    ensures multiset(s)[s[i]] >= 2
  {
    assert s == s[..i] + [s[i]] + s[i + 1..j] + [s[j]] + s[j + 1..];
  }

  lemma Once(s: seq<Entry>, e: Entry)
    requires DistinctEntries(s) && e in s
    ensures multiset(s)[e] == 1
  {
    var i :| 0 <= i < |s| && s[i] == e;
    assert s == s[..i] + [e] + s[i + 1..];
    assert e !in s[..i] && e !in s[i + 1..];
  }

  lemma SameMembers(a: seq<Entry>, b: seq<Entry>)
    requires multiset(a) == multiset(b)
    ensures (forall e :: e in a <==> e in b) && |a| == |b|
  {
    forall e ensures e in a <==> e in b {
      assert e in a <==> e in multiset(a);
      assert e in b <==> e in multiset(b);
    }
    assert |multiset(a)| == |a| && |multiset(b)| == |b|;
  }

  /** Main result: what the generator writes is accepted exactly if the baseline has the fixed number of distinct
      paths and no path frozen as something else than a regular file has since disappeared. */
  lemma GeneratedAccepted(size: nat, b: Baseline, ws: Workspace, m: Manifest, r: Receipt)
    requires Generated(b, ws, m, r)
    ensures Accepts(size, b, ws, m, r) <==> DistinctItems(b.items) && |b.items| == size && PlainDeletions(b.items, ws)
  {
    var changes := Changes(b.items, ws);
    SameMembers(m.entries, changes);
    ChangesContain(b.items, ws);
    ChangesCounted(b.items, ws);
    if DistinctItems(b.items) && |b.items| == size {
      ChangesDistinct(b.items, ws);
      DistinctByBag(changes, m.entries);
      if PlainDeletions(b.items, ws) {
        GoneCounted(b.items, ws);
        forall item | item in b.items ensures Explained(m.entries, item, ws) {
          ItemExplained(b.items, ws, m.entries, item);
        }
        forall e | e in m.entries ensures Frozen(b.items, e.path) && e.grounds {
          var item :| item in b.items && e == EntryFor(item, Current(ws, item.path).value);
        }
      } else {
        OddDeletionRefused(b.items, ws, m.entries);
      }
    }
  }

  lemma ItemExplained(items: seq<Item>, ws: Workspace, entries: seq<Entry>, item: Item)
    requires Readable(items, ws) && DistinctItems(items) && PlainDeletions(items, ws) && item in items
    requires forall e :: e in entries <==>
               exists i <- items :: !Same(i, ws) && e == EntryFor(i, Current(ws, i.path).value)
    ensures Explained(entries, item, ws)
  {
    if Same(item, ws) {
      forall e | e in entries ensures e.path != item.path {
        var i :| i in items && !Same(i, ws) && e == EntryFor(i, Current(ws, i.path).value);
      }
    } else {
      assert EntryFor(item, Current(ws, item.path).value) in entries;
    }
  }

  lemma OddDeletionRefused(items: seq<Item>, ws: Workspace, entries: seq<Entry>)
    requires Readable(items, ws) && DistinctEntries(entries) && !PlainDeletions(items, ws)
    requires forall e :: e in entries <==>
               exists i <- items :: !Same(i, ws) && e == EntryFor(i, Current(ws, i.path).value)
    ensures exists item <- items :: !Explained(entries, item, ws)
  {
    var item :| item in items && Current(ws, item.path) == Some(ABSENT) && !item.state.fileType.Regular?
        && item.state != ABSENT;
    var e := EntryFor(item, ABSENT);
    assert e in entries;
    OnlyOne(entries, e);
    assert !Explained(entries, item, ws);
  }

  // ----- What an accepted transition says is true -----

  function Positions(items: seq<Item>, ws: Workspace, group: Group, same: bool): set<int> {
    set i | 0 <= i < |items| && items[i].group == group && (Current(ws, items[i].path) == Some(items[i].state)) == same
  }

  lemma {:induction false} CountIsSize(items: seq<Item>, ws: Workspace, group: Group, same: bool)
    ensures Count(items, ws, group, same) == |Positions(items, ws, group, same)|
  {
    if items != [] {
      var n := |items| - 1;
      CountIsSize(items[..n], ws, group, same);
      PositionsMore(items, ws, group, same);
    }
  }

  lemma PositionsMore(items: seq<Item>, ws: Workspace, group: Group, same: bool)
    requires items != []
    ensures var n := |items| - 1;
            var before := Positions(items[..n], ws, group, same);
            && n !in before
            && Positions(items, ws, group, same) ==
              before + if items[n].group == group && Same(items[n], ws) == same then {n} else {}
  {
    var n := |items| - 1;
    assert forall i :: 0 <= i < n ==> items[..n][i] == items[i];
  }

  function GonePositions(items: seq<Item>, ws: Workspace): set<int> {
    set i | 0 <= i < |items| && items[i].state.fileType == Regular && Current(ws, items[i].path) == Some(ABSENT)
  }

  lemma {:induction false} DeletedIsSize(items: seq<Item>, ws: Workspace)
    ensures CountDeleted(items, ws) == |GonePositions(items, ws)|
  {
    if items != [] {
      var n := |items| - 1;
      DeletedIsSize(items[..n], ws);
      var before, after := GonePositions(items[..n], ws), GonePositions(items, ws);
      if Deleted(items[n], ws) {
        assert after == before + {n};
      } else {
        assert after == before;
      }
    }
  }

  /** `e` tells the truth about the frozen item it is for. */
  predicate Truthful(e: Entry, item: Item, ws: Workspace) {
    && e.path == item.path && e.group == item.group && e.before == item.state
    && Current(ws, item.path) == Some(e.after) && e.after != e.before
    && e.deletion == Some(e.before.fileType == Regular && e.after == ABSENT)
  }

  /** Main result: an accepted transition is the truth and all of it: every entry is a difference of its frozen path as
      it is, every difference has its entry, every frozen path can be read, and the receipt holds the real numbers of
      changed, unchanged and deleted paths of each group. */
  lemma AcceptedIsTrue(size: nat, b: Baseline, ws: Workspace, m: Manifest, r: Receipt)
    requires Accepts(size, b, ws, m, r)
    ensures forall e <- m.entries :: exists item <- b.items :: Truthful(e, item, ws)
    ensures forall item <- b.items :: Current(ws, item.path).Some?
    ensures forall item <- b.items :: Current(ws, item.path) != Some(item.state) ==>
              exists e <- m.entries :: Truthful(e, item, ws)
    ensures forall g :: g in r.changed && r.changed[g] == |Positions(b.items, ws, g, false)|
    ensures forall g :: g in r.same && r.same[g] == |Positions(b.items, ws, g, true)|
    ensures r.deleted == |GonePositions(b.items, ws)| && r.manifest == m && r.passed
    ensures r.frozenCount == |b.items| == size && r.entryCount == |m.entries|
  {
    forall item | item in b.items ensures Current(ws, item.path).Some? {
      assert Explained(m.entries, item, ws);
    }
    forall item | item in b.items && Current(ws, item.path) != Some(item.state)
      ensures exists e <- m.entries :: Truthful(e, item, ws)
    {
      DifferenceTold(m.entries, item, ws);
    }
    forall e | e in m.entries ensures exists item <- b.items :: Truthful(e, item, ws) {
      var item :| item in b.items && item.path == e.path;
      assert Explained(m.entries, item, ws) && Recorded(m.entries, item.path);
      DifferenceTold(m.entries, item, ws);
      OnlyOne(m.entries, e);
    }
    forall g: Group, same: bool ensures Count(b.items, ws, g, same) == |Positions(b.items, ws, g, same)| {
      CountIsSize(b.items, ws, g, same);
    }
    forall g: Group ensures g in r.changed && g in r.same {
      assert g == Protected || g == Incidental || g == Prerequisite;
    }
    DeletedIsSize(b.items, ws);
  }

  lemma DifferenceTold(entries: seq<Entry>, item: Item, ws: Workspace)
    requires Explained(entries, item, ws) && !Same(item, ws)
    ensures exists e <- entries :: Truthful(e, item, ws)
  {
    var e :| e in entries && e.path == item.path && e.group == item.group && e.before == item.state
        && e.after == Current(ws, item.path).value && e.deletion == Some(Deleted(item, ws));
    assert Truthful(e, item, ws);
  }

  function At(ws: Workspace, path: Path): Option<Node> {
    if path in ws then Some(ws[path]) else None
  }

  /** Main result: a transition accepted in one workspace is refused in every workspace that differs from it at any
      frozen path. */
  lemma RefusedElsewhere(size: nat, b: Baseline, ws: Workspace, other: Workspace, m: Manifest, r: Receipt, path: Path)
    requires Accepts(size, b, ws, m, r) && Frozen(b.items, path) && At(other, path) != At(ws, path)
    ensures !Accepts(size, b, other, m, r)
  {
    var item :| item in b.items && item.path == path;
    assert Explained(m.entries, item, ws);
    assert Current(other, path) != Current(ws, path);
    if Explained(m.entries, item, other) {
      if !Same(item, ws) && !Same(item, other) {
        var e :| e in m.entries && e.path == path && e.after == Current(ws, path).value;
        OnlyOne(m.entries, e);
      }
    }
  }

  /** The odd case exists: frozen with leftover fields of a file that was already absent, and still absent. */
  lemma OddDeletionExample(m: Manifest, r: Receipt)
    requires Generated(Baseline([Item(Protected, 0, FileState(Missing, Some(420), 0, None))], 0), map[], m, r)
    ensures !Accepts(1, Baseline([Item(Protected, 0, FileState(Missing, Some(420), 0, None))], 0), map[], m, r)
  {
    var b := Baseline([Item(Protected, 0, FileState(Missing, Some(420), 0, None))], 0);
    assert b.items[0] in b.items && !PlainDeletions(b.items, map[]);
    GeneratedAccepted(1, b, map[], m, r);
  }
}
