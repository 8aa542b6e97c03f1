/** Loading a calibrated corpus file into the vector store: loads may break off at any request and be
    repeated, and a collection whose count is right is skipped. */
module CorpusLoader {
  // ---- the file and the store ---------------------------------------------------------------------

  type Name = string

  datatype Entry = Entry(text: string, source: string, vector: seq<real>)

  datatype Line = Line(coll: Name, entry: Entry)

  datatype Spec = Spec(name: Name, count: nat)

  datatype File = File(sha: string, dim: nat, header: seq<Spec>, lines: seq<Line>)

  /** The entries the lines hold for a collection, in order. */
  function Intended(lines: seq<Line>, name: Name): (r: seq<Entry>)
    ensures |r| <= |lines|
  {
    if lines == [] then []
    else
      var last := lines[|lines| - 1];
      Intended(lines[..|lines| - 1], name) + if last.coll == name then [last.entry] else []
  }

  /** A collection: the file it was created for, and its entries under the ids name-0, name-1, ... */
  datatype Collection = Collection(sha: string, data: map<nat, Entry>)

  type Store = map<Name, Collection>

  /** The collection holds the first |data| intended entries, each under its own id. */
  ghost predicate IsPrefix(data: map<nat, Entry>, want: seq<Entry>) {
    && |data| <= |want|
    && (forall i: nat :: i in data <==> i < |data|)
    && (forall i: nat {:trigger data[i]} :: i < |data| ==> data[i] == want[i])
  }

  ghost predicate Complete(data: map<nat, Entry>, want: seq<Entry>) {
    && (forall i: nat :: i in data <==> i < |want|)
    && (forall i: nat :: i < |want| ==> data[i] == want[i])
  }

  datatype Item = Item(id: nat, entry: Entry)

  function UpsertFirst(data: map<nat, Entry>, batch: seq<Item>, n: nat): map<nat, Entry>
    requires n <= |batch|
  {
    if n == 0 then data else UpsertFirst(data, batch, n - 1)[batch[n - 1].id := batch[n - 1].entry]
  }

  function Upsert(data: map<nat, Entry>, batch: seq<Item>): map<nat, Entry> { UpsertFirst(data, batch, |batch|) }

  /** The batch holds the intended entries from `start` on. */
  ghost predicate Slice(batch: seq<Item>, want: seq<Entry>, start: nat) {
    && start + |batch| <= |want|
    && forall j :: 0 <= j < |batch| ==> batch[j] == Item(start + j, want[start + j])
  }

  function Max(a: nat, b: nat): nat { if a < b then b else a }

  ghost predicate PrefixOfSize(data: map<nat, Entry>, want: seq<Entry>, k: nat) { IsPrefix(data, want) && |data| == k }

  lemma {:induction false} UpsertFirstPrefix(data: map<nat, Entry>, batch: seq<Item>, want: seq<Entry>, start: nat,
                                             n: nat)
    requires IsPrefix(data, want) && Slice(batch, want, start) && start <= |data| && n <= |batch|
    ensures PrefixOfSize(UpsertFirst(data, batch, n), want, Max(|data|, start + n))
  {
    if n > 0 {
      var i := start + (n - 1);
      UpsertFirstPrefix(data, batch, want, start, n - 1);
      SliceAt(batch, want, start, n - 1);
      InsertPrefix(UpsertFirst(data, batch, n - 1), UpsertFirst(data, batch, n), want, i, Max(|data|, i));
    }
  }

  lemma SliceAt(batch: seq<Item>, want: seq<Entry>, start: nat, j: nat)
    requires Slice(batch, want, start) && j < |batch|
    ensures batch[j] == Item(start + j, want[start + j])
  {
  }

  lemma UpsertPrefix(data: map<nat, Entry>, batch: seq<Item>, want: seq<Entry>, start: nat)
    requires IsPrefix(data, want) && Slice(batch, want, start) && start <= |data|
    ensures IsPrefix(Upsert(data, batch), want)
    ensures |Upsert(data, batch)| == Max(|data|, start + |batch|)
  {
    UpsertFirstPrefix(data, batch, want, start, |batch|);
  }

  lemma InsertPrefix(before: map<nat, Entry>, after: map<nat, Entry>, want: seq<Entry>, i: nat, k: nat)
    requires PrefixOfSize(before, want, k) && i <= k && i < |want| && after == before[i := want[i]]
    ensures PrefixOfSize(after, want, Max(k, i + 1))
  {
    if i < k {
      assert i in before && after == before;
    } else {
      assert i !in before && |after| == k + 1;
    }
  }

  /** A prefix of the right size is everything: skipping by count is sound. */
  lemma CountDecides(data: map<nat, Entry>, want: seq<Entry>)
    requires IsPrefix(data, want)
    ensures Complete(data, want) <==> |data| == |want|
  {
    assert |data| !in data;
  }

  // ---- what the builder writes ------------------------------------------------------------------------

  /** One collection of the builder: its name and entries. */
  datatype Part = Part(name: Name, entries: seq<Entry>)

  function PartLines(p: Part): (r: seq<Line>)
    ensures |r| == |p.entries| && forall i :: 0 <= i < |r| ==> r[i] == Line(p.name, p.entries[i])
  {
    seq(|p.entries|, i requires 0 <= i < |p.entries| => Line(p.name, p.entries[i]))
  }

  function AllLines(parts: seq<Part>): seq<Line> {
    if parts == [] then [] else AllLines(parts[..|parts| - 1]) + PartLines(parts[|parts| - 1])
  }

  function Built(sha: string, dim: nat, parts: seq<Part>): File {
    File(sha, dim, seq(|parts|, i requires 0 <= i < |parts| => Spec(parts[i].name, |parts[i].entries|)),
         AllLines(parts))
  }

  ghost predicate DistinctNames(parts: seq<Part>) {
    forall i, j :: 0 <= i < j < |parts| ==> parts[i].name != parts[j].name
  }

  ghost predicate WellBuilt(f: File) {
    && (forall i :: 0 <= i < |f.header| ==> f.header[i].count == |Intended(f.lines, f.header[i].name)|)
    && (forall i, j :: 0 <= i < j < |f.header| ==> f.header[i].name != f.header[j].name)
  }

  lemma {:induction false} IntendedConcat(a: seq<Line>, b: seq<Line>, name: Name)
    ensures Intended(a + b, name) == Intended(a, name) + Intended(b, name)
  {
    if b == [] {
      assert a + b == a;
    } else {
      var n := |b| - 1;
      assert (a + b)[..|a| + n] == a + b[..n] && (a + b)[|a| + n] == b[n];
      IntendedConcat(a, b[..n], name);
    }
  }

  lemma {:induction false} IntendedOfPart(name: Name, entries: seq<Entry>, other: Name)
    ensures Intended(PartLines(Part(name, entries)), other) == if other == name then entries else []
    decreases |entries|
  {
    if entries != [] {
      var n := |entries| - 1;
      IntendedOfPart(name, entries[..n], other);
      assert PartLines(Part(name, entries))[..n] == PartLines(Part(name, entries[..n]));
      assert entries == entries[..n] + [entries[n]];
    }
  }

  lemma {:induction false} IntendedOfParts(parts: seq<Part>, i: nat)
    requires DistinctNames(parts) && i < |parts|
    ensures Intended(AllLines(parts), parts[i].name) == parts[i].entries
  {
    var n := |parts| - 1;
    var before, last := parts[..n], parts[n];
    IntendedConcat(AllLines(before), PartLines(last), parts[i].name);
    IntendedOfPart(last.name, last.entries, parts[i].name);
    if i < n {
      IntendedOfParts(before, i);
    } else {
      NotMentioned(before, last.name);
    }
  }

  lemma {:induction false} NotMentioned(parts: seq<Part>, name: Name)
    requires forall i :: 0 <= i < |parts| ==> parts[i].name != name
    ensures Intended(AllLines(parts), name) == []
  {
    if parts != [] {
      var n := |parts| - 1;
      NotMentioned(parts[..n], name);
      IntendedConcat(AllLines(parts[..n]), PartLines(parts[n]), name);
      IntendedOfPart(parts[n].name, parts[n].entries, name);
    }
  }

  /** The builder's file gives back each collection's entries, and its header counts them. */
  lemma BuiltIsWellBuilt(sha: string, dim: nat, parts: seq<Part>)
    requires DistinctNames(parts)
    ensures WellBuilt(Built(sha, dim, parts))
    ensures forall i :: 0 <= i < |parts| ==> Intended(Built(sha, dim, parts).lines, parts[i].name) == parts[i].entries
  {
    forall i | 0 <= i < |parts|
      ensures Intended(AllLines(parts), parts[i].name) == parts[i].entries
    {
      IntendedOfParts(parts, i);
    }
  }

  // ---- the state of a load ---------------------------------------------------------------------------------

  /** What every collection of the file should hold. */
  type Wants = map<Name, seq<Entry>>
  type Batches = map<Name, seq<Item>>
  type Counts = map<Name, nat>

  function Names(specs: seq<Spec>): set<Name> { set s | s in specs :: s.name }

  ghost function WantsOf(f: File): Wants { map n | n in Names(f.header) :: Intended(f.lines, n) }

  /** Of the collections of this file, those created for it hold a prefix of what they should. */
  ghost predicate Consistent(store: Store, sha: string, want: Wants) {
    forall n :: n in store && n in want && store[n].sha == sha ==> IsPrefix(store[n].data, want[n])
  }

  /** The collection holds entries of another build. */
  predicate Foreign(store: Store, sha: string, name: Name) {
    name in store && |store[name].data| > 0 && store[name].sha != sha
  }

  /** A collection of the file after loads that began with the store `was`: it holds a prefix of what it
      should, whatever its label, or it is another build's and untouched; and a label other than the
      file's was there before. */
  ghost predicate Sane(was: Store, store: Store, sha: string, want: Wants, n: Name)
    requires n in store && n in want
  {
    && (IsPrefix(store[n].data, want[n]) || (Foreign(was, sha, n) && store[n] == was[n]))
    && (store[n].sha == sha || (n in was && was[n].sha == store[n].sha))
  }

  ghost predicate AllSane(was: Store, store: Store, sha: string, want: Wants) {
    forall n {:trigger Sane(was, store, sha, want, n)} :: n in store && n in want ==> Sane(was, store, sha, want, n)
  }

  lemma NoDataNoEntries(data: map<nat, Entry>, want: seq<Entry>)
    requires |data| == 0
    ensures IsPrefix(data, want)
  {
    assert data == map[];
  }

  lemma SaneAtFirst(was: Store, sha: string, want: Wants)
    requires Consistent(was, sha, want)
    ensures AllSane(was, was, sha, want)
  {
    forall n | n in was && n in want ensures Sane(was, was, sha, want, n) {
      if |was[n].data| == 0 {
        NoDataNoEntries(was[n].data, want[n]);
      }
    }
  }

  lemma SaneIsConsistent(was: Store, store: Store, sha: string, want: Wants)
    requires AllSane(was, store, sha, want)
    ensures Consistent(store, sha, want)
  {
    forall n | n in store && n in want && store[n].sha == sha ensures IsPrefix(store[n].data, want[n]) {
      assert Sane(was, store, sha, want, n);
    }
  }

  lemma SaneTwice(a: Store, b: Store, c: Store, sha: string, want: Wants)
    requires AllSane(a, b, sha, want) && AllSane(b, c, sha, want)
    ensures AllSane(a, c, sha, want)
  {
    forall n | n in c && n in want ensures Sane(a, c, sha, want, n) {
      assert Sane(b, c, sha, want, n);
      if n in b {
        assert Sane(a, b, sha, want, n);
      }
    }
  }

  /** No collection of the file holds another build's entries, so that a load needs no RECREATE. */
  ghost predicate Loadable(store: Store, sha: string, want: Wants) { forall n :: n in want ==> !Foreign(store, sha, n) }

  /** The first batch stored in an empty collection that another build left makes it look foreign. */
  lemma FirstBatchEstranges(c: Collection, batch: seq<Item>, want: seq<Entry>, sha: string)
    requires c.data == map[] && c.sha != sha && batch != [] && Slice(batch, want, 0)
    ensures IsPrefix(Upsert(c.data, batch), want) && |Upsert(c.data, batch)| > 0
  {
    NoDataNoEntries(c.data, want);
    UpsertPrefix(c.data, batch, want, 0);
  }

  /** No collection of the file carries another build's label, except an empty one that is to stay empty. */
  ghost predicate Resumable(was: Store, sha: string, want: Wants) {
    forall n :: n in was && n in want && was[n].sha != sha ==> was[n].data == map[] && want[n] == []
  }

  /** Then a load is never refused later, however the loads before it ended. */
  lemma ResumableStays(was: Store, store: Store, sha: string, want: Wants)
    requires Resumable(was, sha, want) && AllSane(was, store, sha, want)
    ensures Loadable(store, sha, want)
  {
    forall n | n in want && n in store ensures !Foreign(store, sha, n) {
      assert Sane(was, store, sha, want, n);
    }
  }

  /** The collection keeps its label and loses no entry. */
  ghost predicate GrownAt(was: Store, store: Store, n: Name) {
    n in was ==> n in store && store[n].sha == was[n].sha && was[n].data.Keys <= store[n].data.Keys
  }

  /** Loads without RECREATE only add. */
  ghost predicate Grown(was: Store, store: Store) {
    forall n {:trigger GrownAt(was, store, n)} :: GrownAt(was, store, n)
  }

  lemma GrownStep(was: Store, store: Store, next: Store, name: Name)
    requires Grown(was, store) && store - {name} == next - {name} && GrownAt(store, next, name)
    ensures Grown(was, next)
  {
    forall n ensures GrownAt(was, next, n) {
      assert GrownAt(was, store, n);
      if n != name {
        SameElsewhere(store, next, {name}, n);
      }
    }
  }

  lemma {:induction false} UpsertKeeps(data: map<nat, Entry>, batch: seq<Item>, n: nat)
    requires n <= |batch|
    ensures data.Keys <= UpsertFirst(data, batch, n).Keys
  {
    if n > 0 {
      UpsertKeeps(data, batch, n - 1);
    }
  }

  lemma ForeignStays(was: Store, store: Store, sha: string, want: Wants)
    requires Grown(was, store) && !Loadable(was, sha, want)
    ensures !Loadable(store, sha, want)
  {
    var n :| n in want && Foreign(was, sha, n);
    assert GrownAt(was, store, n);
    var k :| k in was[n].data;
    assert k in store[n].data;
    assert Foreign(store, sha, n);
  }

  /** A load that completes every collection leaves a foreign label on one that is not to stay empty. */
  lemma CompletedEstranged(was: Store, store: Store, sha: string, want: Wants)
    requires Grown(was, store) && !Resumable(was, sha, want) && Loadable(was, sha, want)
    requires forall n :: n in want ==> CompleteAt(want, store, n)
    ensures !Loadable(store, sha, want)
  {
    var n :| n in was && n in want && was[n].sha != sha && !(was[n].data == map[] && want[n] == []);
    assert GrownAt(was, store, n) && CompleteAt(want, store, n) && !Foreign(was, sha, n);
    assert 0 in store[n].data;
    assert Foreign(store, sha, n);
  }

  ghost predicate CompleteAt(want: Wants, store: Store, n: Name) {
    n in want && n in store && Complete(store[n].data, want[n])
  }

  /** A collection being loaded: a prefix is stored, and the batch goes on where it is known to end. */
  ghost predicate Track(want: seq<Entry>, data: map<nat, Entry>, batch: seq<Item>, count: nat) {
    && IsPrefix(data, want) && |batch| <= count
    && Slice(batch, want, count - |batch|) && count - |batch| <= |data|
  }

  ghost predicate TrackedAt(want: Wants, store: Store, batches: Batches, counts: Counts, n: Name) {
    n in want && n in store && n in batches && n in counts && Track(want[n], store[n].data, batches[n], counts[n])
  }

  /** A collection of the file is being loaded, or is complete. */
  ghost predicate OnTrack(want: Wants, store: Store, batches: Batches, counts: Counts, n: Name) {
    if n in batches then TrackedAt(want, store, batches, counts, n) else CompleteAt(want, store, n)
  }

  ghost predicate AllOnTrack(names: set<Name>, want: Wants, store: Store, batches: Batches, counts: Counts) {
    && batches.Keys == counts.Keys <= names
    && (forall n {:trigger OnTrack(want, store, batches, counts, n)} ::
        n in names ==> OnTrack(want, store, batches, counts, n))
  }

  /** The counters count the lines read so far. */
  ghost predicate Counted(lines: seq<Line>, counts: Counts) {
    forall n :: n in counts ==> counts[n] == |Intended(lines, n)|
  }

  // ---- steps that touch one collection ---------------------------------------------------------------------

  lemma SameElsewhere(a: Store, b: Store, names: set<Name>, name: Name)
    requires a - names == b - names && name !in names
    ensures (name in a <==> name in b) && (name in a ==> a[name] == b[name])
  {
    assert name in a <==> name in a - names;
    assert name in b <==> name in b - names;
    assert name in a ==> (a - names)[name] == a[name] && (b - names)[name] == b[name];
  }

  lemma SameBeyond(a: Store, b: Store, c: Store, names: set<Name>, name: Name)
    requires a - names == b - names && b - {name} == c - {name}
    ensures a - (names + {name}) == c - (names + {name})
  {
    assert a - (names + {name}) == (a - names) - {name};
    assert b - (names + {name}) == (b - names) - {name};
    assert b - (names + {name}) == (b - {name}) - names;
    assert c - (names + {name}) == (c - {name}) - names;
  }

  lemma SameSuperset(a: Store, b: Store, names: set<Name>, more: set<Name>)
    requires a - names == b - names && names <= more
    ensures a - more == b - more
  {
    assert a - more == (a - names) - more;
    assert b - more == (b - names) - more;
  }

  lemma SaneStep(was: Store, sha: string, want: Wants, store: Store, next: Store, name: Name)
    requires AllSane(was, store, sha, want) && store - {name} == next - {name}
    requires name in next && name in want ==> Sane(was, next, sha, want, name)
    ensures AllSane(was, next, sha, want)
  {
    forall n | n in next && n in want ensures Sane(was, next, sha, want, n) {
      if n != name {
        SameElsewhere(store, next, {name}, n);
        assert Sane(was, store, sha, want, n);
      }
    }
  }

  lemma OnTrackKept(want: Wants, store: Store, next: Store, batches: Batches, b: Batches, counts: Counts, c: Counts,
                    name: Name, n: Name)
    requires OnTrack(want, store, batches, counts, n) && n != name && store - {name} == next - {name}
    requires (n in b <==> n in batches) && (n in b ==> b[n] == batches[n])
    requires (n in c <==> n in counts) && (n in c ==> c[n] == counts[n])
    ensures OnTrack(want, next, b, c, n)
  {
    SameElsewhere(store, next, {name}, n);
  }

  /** A step that changes only `name`, in the store, its batch and its count. */
  ghost predicate Only(name: Name, store: Store, next: Store, batches: Batches, b: Batches, counts: Counts, c: Counts) {
    && store - {name} == next - {name}
    && (forall n :: n != name ==> (n in b <==> n in batches) && (n in b ==> b[n] == batches[n]))
    && (forall n :: n != name ==> (n in c <==> n in counts) && (n in c ==> c[n] == counts[n]))
  }

  lemma AllOnTrackStep(names: set<Name>, want: Wants, store: Store, next: Store, batches: Batches, b: Batches,
                       counts: Counts, c: Counts, name: Name)
    requires AllOnTrack(names, want, store, batches, counts) && Only(name, store, next, batches, b, counts, c)
    requires OnTrack(want, next, b, c, name) && (name in b <==> name in c)
    ensures AllOnTrack(names + {name}, want, next, b, c)
  {
    forall n | n in names + {name} ensures OnTrack(want, next, b, c, n) {
      if n != name {
        OnTrackKept(want, store, next, batches, b, counts, c, name, n);
      }
    }
    KeysAgree(names, batches, b, counts, c, name);
  }

  lemma KeysAgree(names: set<Name>, batches: Batches, b: Batches, counts: Counts, c: Counts, name: Name)
    requires batches.Keys == counts.Keys <= names && (name in b <==> name in c)
    requires forall n :: n != name ==> (n in b <==> n in batches)
    requires forall n :: n != name ==> (n in c <==> n in counts)
    ensures b.Keys == c.Keys <= names + {name}
  {
    assert forall n :: n in b <==> n in c;
  }

  function Flushed(c: Collection, batch: seq<Item>): Collection { c.(data := Upsert(c.data, batch)) }

  /** A flushed batch: the stored prefix now reaches as far as was read. */
  lemma FlushTracks(want: seq<Entry>, data: map<nat, Entry>, batch: seq<Item>, count: nat)
    requires Track(want, data, batch, count)
    ensures Track(want, Upsert(data, batch), [], count)
  {
    UpsertPrefix(data, batch, want, count - |batch|);
  }

  /** A collection that is new, or the one there was, is as it should be. */
  lemma SaneAfterCreate(was: Store, sha: string, want: Wants, store: Store, next: Store, name: Name)
    requires AllSane(was, store, sha, want) && store - {name} == next - {name}
    requires name in next ==> next[name] == Collection(sha, map[]) || (name in store && next[name] == store[name])
    ensures AllSane(was, next, sha, want)
  {
    if name in next && name in want {
      NoDataNoEntries(map[], want[name]);
      if name in store {
        assert Sane(was, store, sha, want, name);
      }
      assert Sane(was, next, sha, want, name);
    }
    SaneStep(was, sha, want, store, next, name);
  }

  lemma OursIsPrefix(was: Store, store: Store, sha: string, want: Wants, name: Name)
    requires AllSane(was, store, sha, want) && name in store && name in want
    requires !Foreign(store, sha, name)
    ensures IsPrefix(store[name].data, want[name])
    ensures |store[name].data| == |want[name]| ==> Complete(store[name].data, want[name])
  {
    assert Sane(was, store, sha, want, name);
    if |store[name].data| == 0 {
      NoDataNoEntries(store[name].data, want[name]);
    }
    CountDecides(store[name].data, want[name]);
  }

  lemma FlushedAt(want: Wants, store: Store, next: Store, batches: Batches, b: Batches, counts: Counts, name: Name)
    requires TrackedAt(want, store, batches, counts, name)
    requires name in next && next[name] == Flushed(store[name], batches[name]) && name in b && b[name] == []
    ensures TrackedAt(want, next, b, counts, name) && IsPrefix(next[name].data, want[name])
  {
    FlushTracks(want[name], store[name].data, batches[name], counts[name]);
  }

  lemma FlushStep(names: set<Name>, was: Store, sha: string, want: Wants, store: Store, next: Store, batches: Batches,
                  b: Batches, counts: Counts, name: Name)
    requires AllSane(was, next, sha, want) && AllOnTrack(names, want, store, batches, counts) && name in names
    requires store - {name} == next - {name} && name in batches && b == batches[name := []]
    requires TrackedAt(want, next, b, counts, name)
    ensures AllOnTrack(names, want, next, b, counts)
  {
    AllOnTrackStep(names, want, store, next, batches, b, counts, counts, name);
    assert names + {name} == names;
  }

  lemma TrackAppend(want: seq<Entry>, data: map<nat, Entry>, batch: seq<Item>, count: nat, e: Entry)
    requires Track(want, data, batch, count) && count < |want| && want[count] == e
    ensures Track(want, data, batch + [Item(count, e)], count + 1)
  {
  }

  lemma ReadMore(lines: seq<Line>, i: nat, name: Name)
    requires i < |lines|
    ensures Intended(lines[..i + 1], name)
      == Intended(lines[..i], name) + if lines[i].coll == name then [lines[i].entry] else []
    ensures Intended(lines[..i + 1], name) <= Intended(lines, name)
  {
    assert lines[..i + 1][..i] == lines[..i];
    assert lines == lines[..i + 1] + lines[i + 1..];
    IntendedConcat(lines[..i + 1], lines[i + 1..], name);
  }

  lemma CountedStep(lines: seq<Line>, i: nat, counts: Counts)
    requires i < |lines| && Counted(lines[..i], counts)
    ensures lines[i].coll !in counts ==> Counted(lines[..i + 1], counts)
    ensures lines[i].coll in counts ==> Counted(lines[..i + 1], counts[lines[i].coll := counts[lines[i].coll] + 1])
  {
    forall n | n in counts
      ensures |Intended(lines[..i + 1], n)| == counts[n] + if n == lines[i].coll then 1 else 0
    {
      ReadMore(lines, i, n);
    }
  }

  lemma NextWanted(lines: seq<Line>, i: nat)
    requires i < |lines|
    ensures var n := lines[i].coll;
      && |Intended(lines[..i], n)| < |Intended(lines, n)|
      && Intended(lines, n)[|Intended(lines[..i], n)|] == lines[i].entry
  {
    ReadMore(lines, i, lines[i].coll);
  }

  lemma AppendedAt(want: Wants, store: Store, batches: Batches, counts: Counts, lines: seq<Line>, i: nat)
    requires i < |lines| && TrackedAt(want, store, batches, counts, lines[i].coll) && Counted(lines[..i], counts)
    requires want[lines[i].coll] == Intended(lines, lines[i].coll)
    ensures var n := lines[i].coll;
      TrackedAt(want, store, batches[n := batches[n] + [Item(counts[n], lines[i].entry)]],
                counts[n := counts[n] + 1], n)
  {
    var n := lines[i].coll;
    NextWanted(lines, i);
    TrackAppend(want[n], store[n].data, batches[n], counts[n], lines[i].entry);
  }

  lemma AppendStep(want: Wants, store: Store, batches: Batches, counts: Counts, b: Batches, c: Counts,
                   lines: seq<Line>, i: nat)
    requires i < |lines| && lines[i].coll in batches && lines[i].coll in counts
    requires AllOnTrack(want.Keys, want, store, batches, counts) && Counted(lines[..i], counts)
    requires forall n :: n in want ==> want[n] == Intended(lines, n)
    requires b == batches[lines[i].coll := batches[lines[i].coll] + [Item(counts[lines[i].coll], lines[i].entry)]]
    requires c == counts[lines[i].coll := counts[lines[i].coll] + 1]
    ensures AllOnTrack(want.Keys, want, store, b, c)
  {
    var name := lines[i].coll;
    assert OnTrack(want, store, batches, counts, name);
    AppendedAt(want, store, batches, counts, lines, i);
    AllOnTrackStep(want.Keys, want, store, store, batches, b, counts, c, name);
    assert want.Keys + {name} == want.Keys;
  }

  /** All lines read and nothing left in the batch: the collection is complete. */
  lemma FlushedIsComplete(f: File, store: Store, batches: Batches, counts: Counts, n: Name)
    requires AllOnTrack(WantsOf(f).Keys, WantsOf(f), store, batches, counts) && Counted(f.lines, counts)
    requires n in Names(f.header) && (n in batches ==> batches[n] == [])
    ensures CompleteAt(WantsOf(f), store, n)
    ensures n in batches ==> |store[n].data| == |Intended(f.lines, n)|
  {
    assert OnTrack(WantsOf(f), store, batches, counts, n);
    if n in batches {
      CountDecides(store[n].data, WantsOf(f)[n]);
    }
  }

  lemma NamesStep(specs: seq<Spec>, i: nat)
    requires i < |specs| && forall j, k :: 0 <= j < k < |specs| ==> specs[j].name != specs[k].name
    ensures Names(specs[..i + 1]) == Names(specs[..i]) + {specs[i].name}
    ensures specs[i].name !in Names(specs[..i]) && specs[i].name in Names(specs) && Names(specs[..i]) <= Names(specs)
  {
    assert specs[..i + 1] == specs[..i] + [specs[i]];
    assert specs[i] in specs;
    forall s | s in specs[..i] ensures s.name != specs[i].name && s in specs { }
  }

  // ---- the loader ----------------------------------------------------------------------------------------

  /** What becomes of a request: carried out and answered, not carried out, or carried out although
      the loader never hears of it. Everything but the first ends the load. */
  datatype Reply = Answered | Refused | Unheard

  class Loader {
    const reply: nat -> Reply
    var sent: nat
    var store: Store
    var batches: Batches
    var counts: Counts
    ghost var healthy: bool  // every request so far was answered
    ghost var origin: Store  // what the load began with
    ghost var adding: bool  // the load is without RECREATE

    constructor (store: Store, reply: nat -> Reply)
      ensures this.store == store && this.reply == reply && sent == 0 && healthy
    {
      this.store, this.reply, sent, healthy, origin, adding := store, reply, 0, true, store, true;
      batches, counts := map[], map[];
    }

    ghost predicate AllAnswered(from: nat)
      reads this
    {
      forall k :: from <= k < sent ==> reply(k).Answered?
    }

    /** The ghost `healthy` follows the replies since request `from`. */
    ghost predicate Heard(from: nat, was: bool)
      reads this
    {
      from <= sent && (was && AllAnswered(from) ==> healthy)
    }

    /** The store as the loads so far leave it. */
    ghost predicate Steady(sha: string, want: Wants)
      reads this
    {
      AllSane(origin, store, sha, want) && (adding ==> Grown(origin, store))
    }

    lemma SteadyAfterCreate(sha: string, want: Wants, before: Store, name: Name)
      requires AllSane(origin, before, sha, want) && (adding ==> Grown(origin, before))
      requires before - {name} == store - {name} && (name in before ==> store == before)
      requires name in store
        ==> store[name] == Collection(sha, map[]) || (name in before && store[name] == before[name])
      ensures Steady(sha, want)
    {
      SaneAfterCreate(origin, sha, want, before, store, name);
      if adding {
        GrownStep(origin, before, store, name);
      }
    }

    /** One request that only reads. */
    method Ask() returns (ok: bool)
      modifies this`sent, this`healthy
      ensures Heard(old(sent), old(healthy))
      ensures sent == old(sent) + 1 && ok == reply(old(sent)).Answered? && healthy == (old(healthy) && ok)
    {
      ok := reply(sent).Answered?;
      healthy := healthy && ok;
      sent := sent + 1;
    }

    /** One request that changes collection `name` to c. */
    method Put(name: Name, c: Collection) returns (ok: bool)
      modifies this`sent, this`store, this`healthy
      ensures Heard(old(sent), old(healthy))
      ensures sent == old(sent) + 1 && ok == reply(old(sent)).Answered? && healthy == (old(healthy) && ok)
      ensures old(store) - {name} == store - {name}
      ensures store == old(store) || (name in store && store[name] == c)
      ensures ok ==> name in store && store[name] == c
    {
      if !reply(sent).Refused? {
        store := store[name := c];
      }
      ok := reply(sent).Answered?;
      healthy := healthy && ok;
      sent := sent + 1;
    }

    /** get_or_create_collection: an existing collection keeps its metadata and data. */
    method GetOrCreate(sha: string, name: Name) returns (ok: bool)
      modifies this`sent, this`store, this`healthy
      ensures Heard(old(sent), old(healthy))
      ensures healthy == (old(healthy) && ok) && old(store) - {name} == store - {name}
      ensures name in old(store) ==> store == old(store)
      ensures name !in old(store) ==> name !in store || store[name] == Collection(sha, map[])
      ensures ok ==> name in store
    {
      if name in store {
        ok := Ask();
      } else {
        ok := Put(name, Collection(sha, map[]));
      }
    }

    method DropCollection(name: Name) returns (ok: bool)
      modifies this`sent, this`store, this`healthy
      ensures Heard(old(sent), old(healthy))
      ensures healthy == (old(healthy) && ok) && old(store) - {name} == store - {name}
      ensures name in store ==> store == old(store)
      ensures ok ==> name !in store
    {
      if !reply(sent).Refused? {
        store := store - {name};
      }
      ok := reply(sent).Answered?;
      healthy := healthy && ok;
      sent := sent + 1;
    }

    /** RECREATE: drop the collection and start it anew. */
    method Recreate(sha: string, name: Name) returns (ok: bool)
      modifies this`sent, this`store, this`healthy
      ensures Heard(old(sent), old(healthy))
      ensures healthy == (old(healthy) && ok) && old(store) - {name} == store - {name}
      ensures name in store
        ==> store[name] == Collection(sha, map[]) || (name in old(store) && store[name] == old(store)[name])
      ensures ok ==> name in store && store[name] == Collection(sha, map[])
    {
      ok := DropCollection(name);
      if !ok { return; }
      ok := GetOrCreate(sha, name);
      if !ok { return; }
      ok := Ask();
    }

    /** Decides about one collection of the header: skip it, or have it loaded. */
    method PrepareOne(sha: string, spec: Spec, recreate: bool, force: bool, ghost want: Wants)
      returns (ok: bool, load: bool)
      requires Steady(sha, want) && spec.name in want && spec.count == |want[spec.name]| && !(adding && recreate)
      modifies this`sent, this`store, this`healthy
      ensures Heard(old(sent), old(healthy))
      ensures Steady(sha, want) && old(store) - {spec.name} == store - {spec.name} && (healthy ==> old(healthy))
      ensures ok ==> spec.name in store && IsPrefix(store[spec.name].data, want[spec.name])
      ensures ok && !load ==> Complete(store[spec.name].data, want[spec.name])
      ensures ok && !recreate ==> !Foreign(old(store), sha, spec.name)
      ensures !ok && healthy ==> !recreate && Foreign(old(store), sha, spec.name)
    {
      load := false;
      var name := spec.name;
      ok := GetOrCreate(sha, name);
      SteadyAfterCreate(sha, want, old(store), name);
      if !ok { return; }
      ok := Ask();
      if !ok { return; }
      ok := Ask();
      if !ok { return; }
      var existing := |store[name].data|;
      if existing > 0 && store[name].sha != sha && !recreate {
        return false, false;
      }
      if existing > 0 && recreate {
        ghost var before := store;
        ok := Recreate(sha, name);
        SaneAfterCreate(origin, sha, want, before, store, name);
        if !ok { return; }
        existing := |store[name].data|;
      }
      OursIsPrefix(origin, store, sha, want, name);
      load := existing != spec.count || force;
    }

    ghost predicate PreparedUpTo(sha: string, want: Wants, was: Store, names: set<Name>)
      reads this
    {
      && Steady(sha, want) && was - names == store - names
      && AllOnTrack(names, want, store, batches, counts)
      && forall n :: n in counts ==> counts[n] == 0
    }

    /** The body of the loop over the header; `names` were looked at before. */
    method PrepareNext(sha: string, spec: Spec, recreate: bool, force: bool,
                       ghost want: Wants, ghost was: Store, ghost names: set<Name>) returns (ok: bool)
      requires PreparedUpTo(sha, want, was, names) && spec.name !in names && spec.name in want
      requires spec.count == |want[spec.name]| && !(adding && recreate)
      modifies this`sent, this`store, this`healthy, this`batches, this`counts
      ensures Heard(old(sent), old(healthy))
      ensures Steady(sha, want) && was - (names + {spec.name}) == store - (names + {spec.name})
      ensures ok ==> PreparedUpTo(sha, want, was, names + {spec.name})
      ensures (healthy ==> old(healthy))
      ensures ok && !recreate ==> !Foreign(was, sha, spec.name)
      ensures !ok && healthy ==> !recreate && Foreign(was, sha, spec.name)
    {
      var name := spec.name;
      SameElsewhere(was, store, names, name);
      ghost var before, b, c := store, batches, counts;
      var load: bool;
      ok, load := PrepareOne(sha, spec, recreate, force, want);
      SameBeyond(was, before, store, names, name);
      if !ok {
        return;
      }
      if load {
        batches := batches[name := []];
        counts := counts[name := 0];
      }
      AllOnTrackStep(names, want, before, store, b, batches, c, counts, name);
    }

    /** The loop over the header; nothing is written into a collection yet. */
    method Prepare(f: File, recreate: bool, force: bool) returns (ok: bool)
      requires Steady(f.sha, WantsOf(f)) && WellBuilt(f) && !(adding && recreate)
      modifies this`sent, this`store, this`healthy, this`batches, this`counts
      ensures Heard(old(sent), old(healthy))
      ensures Steady(f.sha, WantsOf(f)) && old(store) - Names(f.header) == store - Names(f.header)
      ensures (healthy ==> old(healthy))
      ensures ok && !recreate ==> Loadable(old(store), f.sha, WantsOf(f))
      ensures ok ==> PreparedUpTo(f.sha, WantsOf(f), old(store), Names(f.header))
      ensures !ok && healthy ==> !recreate && exists n :: n in Names(f.header) && Foreign(old(store), f.sha, n)
    {
      batches, counts := map[], map[];
      for i := 0 to |f.header|
        invariant PreparedUpTo(f.sha, WantsOf(f), old(store), Names(f.header[..i])) && (healthy ==> old(healthy))
        invariant Heard(old(sent), old(healthy))
        invariant !recreate ==> forall n :: n in Names(f.header[..i]) ==> !Foreign(old(store), f.sha, n)
      {
        NamesStep(f.header, i);
        ok := PrepareNext(f.sha, f.header[i], recreate, force, WantsOf(f), old(store), Names(f.header[..i]));
        if !ok {
          SameSuperset(old(store), store, Names(f.header[..i]) + {f.header[i].name}, Names(f.header));
          return;
        }
      }
      assert f.header[..|f.header|] == f.header;
      return true;
    }

    ghost predicate Loading(sha: string, want: Wants, read: seq<Line>)
      reads this
    {
      Steady(sha, want) && AllOnTrack(want.Keys, want, store, batches, counts) && Counted(read, counts)
    }

    /** Upserts a collection's batch; a re-run after a partial load rewrites the same ids. */
    method FlushBatch(name: Name, ghost sha: string, ghost want: Wants, ghost read: seq<Line>) returns (ok: bool)
      requires Loading(sha, want, read) && name in batches
      modifies this`sent, this`store, this`healthy, this`batches
      ensures Heard(old(sent), old(healthy))
      ensures Steady(sha, want) && old(store) - {name} == store - {name} && healthy == (old(healthy) && ok)
      ensures ok ==> Loading(sha, want, read) && batches == old(batches)[name := []]
    {
      assert OnTrack(want, store, batches, counts, name);
      ok := true;
      if |batches[name]| > 0 {
        ok := UpsertBatch(name, sha, want);
        if !ok {
          return;
        }
      }
      batches := batches[name := []];
      FlushStep(want.Keys, origin, sha, want, old(store), store, old(batches), batches, counts, name);
    }

    method UpsertBatch(name: Name, ghost sha: string, ghost want: Wants) returns (ok: bool)
      requires Steady(sha, want) && TrackedAt(want, store, batches, counts, name)
      modifies this`sent, this`store, this`healthy
      ensures Heard(old(sent), old(healthy))
      ensures Steady(sha, want) && old(store) - {name} == store - {name} && healthy == (old(healthy) && ok)
      ensures ok ==> TrackedAt(want, store, batches[name := []], counts, name) && IsPrefix(store[name].data, want[name])
    {
      var c := Flushed(store[name], batches[name]);
      FlushedAt(want, store, store[name := c], batches, batches[name := []], counts, name);
      ok := Put(name, c);
      assert Sane(origin, old(store), sha, want, name);
      assert name in store ==> Sane(origin, store, sha, want, name);
      SaneStep(origin, sha, want, old(store), store, name);
      if adding {
        UpsertKeeps(old(store)[name].data, batches[name], |batches[name]|);
        GrownStep(origin, old(store), store, name);
      }
    }

    /** Appends the entry of a line to its collection's batch. */
    method Append(line: Line, ghost sha: string, ghost want: Wants, ghost lines: seq<Line>, ghost i: nat)
      requires i < |lines| && line == lines[i] && Loading(sha, want, lines[..i]) && line.coll in batches
      requires forall n :: n in want ==> want[n] == Intended(lines, n)
      modifies this`batches, this`counts
      ensures Loading(sha, want, lines[..i + 1]) && batches.Keys == old(batches).Keys
    {
      var name := line.coll;
      ghost var b, c := batches, counts;
      CountedStep(lines, i, counts);
      batches := batches[name := batches[name] + [Item(counts[name], line.entry)]];
      counts := counts[name := counts[name] + 1];
      AppendStep(want, store, b, c, batches, counts, lines, i);
    }

    /** The body of the loop over the lines. */
    method Feed(f: File, i: nat, batchSize: int) returns (ok: bool)
      requires i < |f.lines| && Loading(f.sha, WantsOf(f), f.lines[..i])
      modifies this`sent, this`store, this`healthy, this`batches, this`counts
      ensures Heard(old(sent), old(healthy))
      ensures Steady(f.sha, WantsOf(f)) && old(store) - Names(f.header) == store - Names(f.header)
      ensures healthy ==> old(healthy)
      ensures ok ==> Loading(f.sha, WantsOf(f), f.lines[..i + 1])
      ensures !ok && healthy ==> BadDims(f)
    {
      var line := f.lines[i];
      if line.coll !in counts {
        CountedStep(f.lines, i, counts);
        return true;
      }
      if |line.entry.vector| != f.dim {
        return false;
      }
      Append(line, f.sha, WantsOf(f), f.lines, i);
      ok := true;
      if |batches[line.coll]| >= batchSize {
        ok := FlushBatch(line.coll, f.sha, WantsOf(f), f.lines[..i + 1]);
        SameSuperset(old(store), store, {line.coll}, Names(f.header));
      }
    }

    /** The last loop: flush what is left of a collection and compare its count with the header's. */
    method FinishOne(f: File, spec: Spec) returns (ok: bool)
      requires spec.name in Names(f.header) && spec.count == |Intended(f.lines, spec.name)|
      requires Loading(f.sha, WantsOf(f), f.lines)
      modifies this`sent, this`store, this`healthy, this`batches
      ensures Heard(old(sent), old(healthy))
      ensures Steady(f.sha, WantsOf(f)) && old(store) - Names(f.header) == store - Names(f.header)
      ensures healthy == (old(healthy) && ok)
      ensures ok ==> Loading(f.sha, WantsOf(f), f.lines) && CompleteAt(WantsOf(f), store, spec.name)
      ensures ok ==> batches == if spec.name in old(batches) then old(batches)[spec.name := []] else old(batches)
    {
      var name := spec.name;
      assert name in WantsOf(f);
      if name !in batches {
        assert OnTrack(WantsOf(f), store, batches, counts, name);
        return true;
      }
      ok := FlushBatch(name, f.sha, WantsOf(f), f.lines);
      SameSuperset(old(store), store, {name}, Names(f.header));
      if !ok { return; }
      ok := Ask();
      if !ok { return; }
      FlushedIsComplete(f, store, batches, counts, name);
      ok := |store[name].data| == spec.count;
    }

    ghost predicate AllComplete(f: File)
      reads this
    {
      forall n :: n in Names(f.header) ==> CompleteAt(WantsOf(f), store, n)
    }

    method FeedAll(f: File, batchSize: int) returns (ok: bool)
      requires Loading(f.sha, WantsOf(f), [])
      modifies this`sent, this`store, this`healthy, this`batches, this`counts
      ensures Heard(old(sent), old(healthy))
      ensures Steady(f.sha, WantsOf(f)) && old(store) - Names(f.header) == store - Names(f.header)
      ensures (healthy ==> old(healthy))
      ensures ok ==> Loading(f.sha, WantsOf(f), f.lines)
      ensures !ok && healthy ==> BadDims(f)
    {
      for i := 0 to |f.lines|
        invariant Loading(f.sha, WantsOf(f), f.lines[..i]) && (healthy ==> old(healthy))
          && Heard(old(sent), old(healthy))
        invariant old(store) - Names(f.header) == store - Names(f.header)
      {
        ok := Feed(f, i, batchSize);
        if !ok { return; }
      }
      assert f.lines[..|f.lines|] == f.lines;
      return true;
    }

    method FinishAll(f: File) returns (ok: bool)
      requires WellBuilt(f) && Loading(f.sha, WantsOf(f), f.lines)
      modifies this`sent, this`store, this`healthy, this`batches, this`counts
      ensures Heard(old(sent), old(healthy))
      ensures Steady(f.sha, WantsOf(f)) && old(store) - Names(f.header) == store - Names(f.header)
      ensures healthy == (old(healthy) && ok)
      ensures ok ==> AllComplete(f)
    {
      for i := 0 to |f.header|
        invariant Loading(f.sha, WantsOf(f), f.lines) && healthy == old(healthy) && Heard(old(sent), old(healthy))
        invariant old(store) - Names(f.header) == store - Names(f.header)
        invariant forall j :: 0 <= j < i && f.header[j].name in batches ==> batches[f.header[j].name] == []
      {
        ok := FinishOne(f, f.header[i]);
        if !ok { return; }
      }
      forall n | n in Names(f.header) ensures CompleteAt(WantsOf(f), store, n) {
        FlushedIsComplete(f, store, batches, counts, n);
      }
      return true;
    }

    /** load_calibrated. However it ends, every collection of the file holds a prefix, unless it is
        another build's and was left alone, and without RECREATE nothing is lost; if it succeeds they are
        exactly what the file holds. With every request answered and every vector of the right size it
        succeeds exactly if no other build's entries are in the way or they may be replaced. */
    method Load(f: File, recreate: bool, force: bool, batchSize: int) returns (ok: bool)
      requires WellBuilt(f) && Consistent(store, f.sha, WantsOf(f))
      modifies this
      ensures Consistent(store, f.sha, WantsOf(f)) && AllSane(old(store), store, f.sha, WantsOf(f))
      ensures !recreate ==> Grown(old(store), store)
      ensures old(store) - Names(f.header) == store - Names(f.header)
      ensures ok ==> AllComplete(f)
      ensures ok ==> recreate || Loadable(old(store), f.sha, WantsOf(f))
      ensures !ok && AllAnswered(old(sent)) ==> BadDims(f) || (!recreate && !Loadable(old(store), f.sha, WantsOf(f)))
    {
      origin, adding, healthy := store, !recreate, true;
      SaneAtFirst(store, f.sha, WantsOf(f));
      ok := Prepare(f, recreate, force);
      if ok {
        assert Loading(f.sha, WantsOf(f), []);
        ok := FeedAll(f, batchSize);
        if ok {
          ok := FinishAll(f);
        }
      }
      SaneIsConsistent(old(store), store, f.sha, WantsOf(f));
    }

    /** Any number of loads of one file, each with its own settings and each breaking off anywhere. If
        the first store is resumable, no load finds another build's entries in its way. */
    method LoadRepeatedly(f: File, attempts: seq<Attempt>) returns (succeeded: bool)
      requires WellBuilt(f) && Consistent(store, f.sha, WantsOf(f))
      modifies this
      ensures Consistent(store, f.sha, WantsOf(f)) && AllSane(old(store), store, f.sha, WantsOf(f))
      ensures old(store) - Names(f.header) == store - Names(f.header)
      ensures succeeded ==> AllComplete(f)
      ensures Resumable(old(store), f.sha, WantsOf(f)) ==> Loadable(store, f.sha, WantsOf(f))
    {
      succeeded := false;
      SaneAtFirst(store, f.sha, WantsOf(f));
      for i := 0 to |attempts|
        invariant Consistent(store, f.sha, WantsOf(f)) && AllSane(old(store), store, f.sha, WantsOf(f))
        invariant old(store) - Names(f.header) == store - Names(f.header)
        invariant succeeded ==> AllComplete(f)
      {
        ghost var before := store;
        succeeded := Load(f, attempts[i].recreate, attempts[i].force, attempts[i].batchSize);
        SaneTwice(old(store), before, store, f.sha, WantsOf(f));
      }
      if Resumable(old(store), f.sha, WantsOf(f)) {
        ResumableStays(old(store), store, f.sha, WantsOf(f));
      }
    }
  }

  datatype Attempt = Attempt(recreate: bool, force: bool, batchSize: int)

  ghost predicate BadDims(f: File) { exists i :: 0 <= i < |f.lines| && |f.lines[i].entry.vector| != f.dim }

  /** One load without RECREATE, all of whose requests are answered: it succeeds exactly if no other
      build's entries are in the way, and a further load finds some exactly if the store was not
      resumable, even when this one succeeded. */
  method LoadUninterrupted(f: File, store: Store, force: bool, batchSize: int) returns (ok: bool, after: Store)
    requires WellBuilt(f) && Consistent(store, f.sha, WantsOf(f)) && !BadDims(f)
    ensures ok <==> Loadable(store, f.sha, WantsOf(f))
    ensures ok ==> forall n :: n in WantsOf(f) ==> CompleteAt(WantsOf(f), after, n)
    ensures Grown(store, after) && store - Names(f.header) == after - Names(f.header)
    ensures Loadable(after, f.sha, WantsOf(f)) <==> Resumable(store, f.sha, WantsOf(f))
  {
    var loader := new Loader(store, _ => Answered);
    ok := loader.Load(f, false, force, batchSize);
    after := loader.store;
    if Resumable(store, f.sha, WantsOf(f)) {
      ResumableStays(store, after, f.sha, WantsOf(f));
    } else if ok {
      CompletedEstranged(store, after, f.sha, WantsOf(f));
    } else {
      ForeignStays(store, after, f.sha, WantsOf(f));
    }
  }
}
