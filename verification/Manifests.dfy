/** Building a manifest, sending it, and checking a received one (src/transfer/manifest.go). */
module Manifests {
  import opened Names
  import opened Planning
  import opened Plans

  /** A chunk size of at least 1, as src/main.go:162 demands, which also sets a smaller upper bound. */
  type ChunkSize = x: int | 1 <= x < TWO_TO_THE_63 witness 1

  datatype Result<+T> = Ok(value: T) | Err(error: Error)

  datatype Error = Unreachable | MajorVersionDiffers | ChunkSizeDiffers | ChecksumDiffers | ChunkCountDiffers

  /** What a directory walk reports. Only regular, non-empty files enter the plan. */
  datatype Entry = Dir(name: Name) | Symlink(name: Name) | EmptyFile(name: Name) | File(file: FileEntry)

  /** A manifest on the wire: the range counters are not sent. */
  datatype Wire = Wire(majorVersion: Name, chunkSize: int, checksum: nat, chunkCount: int,
                       dirs: seq<Name>, symlinks: seq<Name>, emptyFiles: seq<Name>, files: seq<FileEntry>)

  /** The hash of the file list and the chunk list, as they are sent. */
  type Checksum = (seq<FileEntry>, seq<Chunk>) -> nat

  datatype Lists = Lists(dirs: seq<Name>, symlinks: seq<Name>, emptyFiles: seq<Name>, files: seq<FileEntry>)

  /** A walked entry goes to the list of its kind; a file entry leaves its counter behind. */
  function Collect(walked: seq<Entry>): Lists {
    if walked == [] then Lists([], [], [], [])
    else
      var l := Collect(walked[..|walked| - 1]);
      match walked[|walked| - 1] {
        case Dir(name) => l.(dirs := l.dirs + [name])
        case Symlink(name) => l.(symlinks := l.symlinks + [name])
        case EmptyFile(name) => l.(emptyFiles := l.emptyFiles + [name])
        case File(f) => l.(files := l.files + [f.(remaining := 0)])
      }
  }

  function NameOf(e: Entry): Name {
    match e
    case File(f) => f.name
    case _ => e.name
  }

  /** The names of the walked entries of one kind: `at` goes up through exactly their positions. */
  ghost predicate ListsAt(walked: seq<Entry>, isKind: Entry -> bool, names: seq<Name>, at: seq<nat>) {
    && |at| == |names| && (forall j, k | 0 <= j < k < |at| :: at[j] < at[k])
    && (forall j | 0 <= j < |at| :: at[j] < |walked| && isKind(walked[at[j]]) && NameOf(walked[at[j]]) == names[j])
    && (forall k | 0 <= k < |walked| && isKind(walked[k]) :: k in at)
  }

  /** `names` are the names of the walked entries of one kind, in walk order. */
  ghost predicate InWalkOrder(walked: seq<Entry>, isKind: Entry -> bool, names: seq<Name>) {
    exists at: seq<nat> :: ListsAt(walked, isKind, names, at)
  }

  /** The positions at which the walk has met this file. */
  ghost function PositionsOf(walked: seq<Entry>, f: FileEntry): set<nat> {
    set k | 0 <= k < |walked| && walked[k].File? && walked[k].file.(remaining := 0) == f
  }

  /** Nothing that the walk has met is lost, doubled or moved. */
  ghost predicate Keeps(walked: seq<Entry>, dirs: seq<Name>, symlinks: seq<Name>, emptyFiles: seq<Name>,
                        files: seq<FileEntry>) {
    && InWalkOrder(walked, (e: Entry) => e.Dir?, dirs)
    && InWalkOrder(walked, (e: Entry) => e.Symlink?, symlinks)
    && InWalkOrder(walked, (e: Entry) => e.EmptyFile?, emptyFiles)
    && forall f: FileEntry :: multiset(files)[f] == |PositionsOf(walked, f)|
  }

  lemma NextInWalkOrder(walked: seq<Entry>, isKind: Entry -> bool, names: seq<Name>, e: Entry)
    requires InWalkOrder(walked, isKind, names)
    ensures InWalkOrder(walked + [e], isKind, if isKind(e) then names + [NameOf(e)] else names)
  {
    var at: seq<nat> :| ListsAt(walked, isKind, names, at);
    hide ListsAt;
    if isKind(e) {
      NextIsListed(walked, isKind, names, at, e);
      assert ListsAt(walked + [e], isKind, names + [NameOf(e)], at + [|walked|]);
    } else {
      NextIsNotListed(walked, isKind, names, at, e);
      assert ListsAt(walked + [e], isKind, names, at);
    }
  }

  lemma NextIsListed(walked: seq<Entry>, isKind: Entry -> bool, names: seq<Name>, at: seq<nat>, e: Entry)
    requires ListsAt(walked, isKind, names, at) && isKind(e)
    ensures ListsAt(walked + [e], isKind, names + [NameOf(e)], at + [|walked|])
  {
    hide NameOf;
    var more, longer: seq<nat> := walked + [e], at + [|walked|];
    forall k | 0 <= k < |more| && isKind(more[k]) ensures k in longer {
      if k == |walked| { assert longer[|at|] == k; } else { assert k in at; }
    }
    forall j | 0 <= j < |longer|
      ensures longer[j] < |more| && isKind(more[longer[j]]) && NameOf(more[longer[j]]) == (names + [NameOf(e)])[j]
    {
      if j < |at| { assert longer[j] == at[j] && more[at[j]] == walked[at[j]]; }
    }
  }

  lemma NextIsNotListed(walked: seq<Entry>, isKind: Entry -> bool, names: seq<Name>, at: seq<nat>, e: Entry)
    requires ListsAt(walked, isKind, names, at) && !isKind(e)
    ensures ListsAt(walked + [e], isKind, names, at)
  {
    hide NameOf;
    var more := walked + [e];
    assert forall k | 0 <= k < |walked| :: more[k] == walked[k];
  }

  lemma NoneInWalkOrder(isKind: Entry -> bool)
    ensures InWalkOrder([], isKind, [])
  {
    assert ListsAt([], isKind, [], []);
  }

  lemma NextPositions(walked: seq<Entry>, e: Entry, f: FileEntry)
    ensures var more := PositionsOf(walked + [e], f);
            if e.File? && e.file.(remaining := 0) == f then |more| == |PositionsOf(walked, f)| + 1
            else more == PositionsOf(walked, f)
  {
    var before, more := PositionsOf(walked, f), PositionsOf(walked + [e], f);
    assert forall k | 0 <= k < |walked| :: (walked + [e])[k] == walked[k];
    if e.File? && e.file.(remaining := 0) == f {
      assert more == before + {|walked|};
    } else {
      assert more == before;
    }
  }

  /** What `Collect` keeps. */
  lemma {:induction false} CollectKeeps(walked: seq<Entry>)
    ensures var l := Collect(walked); Keeps(walked, l.dirs, l.symlinks, l.emptyFiles, l.files)
  {
    hide InWalkOrder, PositionsOf;
    if walked == [] {
      NoneInWalkOrder((e: Entry) => e.Dir?);
      NoneInWalkOrder((e: Entry) => e.Symlink?);
      NoneInWalkOrder((e: Entry) => e.EmptyFile?);
      assert forall f: FileEntry :: PositionsOf(walked, f) == {} by { NoPositions(); }
    } else {
      var front, e := walked[..|walked| - 1], walked[|walked| - 1];
      assert walked == front + [e];
      CollectKeeps(front);
      var l := Collect(front);
      NextInWalkOrder(front, (x: Entry) => x.Dir?, l.dirs, e);
      NextInWalkOrder(front, (x: Entry) => x.Symlink?, l.symlinks, e);
      NextInWalkOrder(front, (x: Entry) => x.EmptyFile?, l.emptyFiles, e);
      forall f: FileEntry ensures multiset(Collect(walked).files)[f] == |PositionsOf(walked, f)| {
        NextPositions(front, e, f);
      }
    }
  }

  lemma NoPositions()
    ensures forall f: FileEntry :: PositionsOf([], f) == {}
  {
  }

  /** `sorted` is the file list of a manifest and `plan` its chunk list: the greedy one, if no sum of the
      planner wraps around, and in any case one that covers every byte of every file once, in order. */
  ghost predicate IsPlanOf(files: seq<FileEntry>, sorted: seq<FileEntry>, chunkSize: int, maxFiles: int, plan: seq<Chunk>) {
    && SortedByName(sorted) && multiset(sorted) == multiset(files)
    && Tiling(Sizes(sorted), maxFiles, plan)
    && (Fit(Sizes(sorted), chunkSize) ==> GreedyPlan(Sizes(sorted), chunkSize, maxFiles, plan))
  }

  /** The checks a node makes on a received manifest, in their order. */
  function Acceptance(w: Wire, majorVersion: Name, chunkSize: int, checksum: nat, chunkCount: int): Result<()> {
    if w.majorVersion != majorVersion then Err(MajorVersionDiffers)
    else if w.chunkSize != chunkSize then Err(ChunkSizeDiffers)
    else if w.checksum != checksum then Err(ChecksumDiffers)
    else if w.chunkCount != chunkCount then Err(ChunkCountDiffers)
    else Ok(())
  }

  class Manifest {
    const majorVersion: Name
    const chunkSize: ChunkSize
    const hash: Checksum
    var checksum: nat
    var chunkCount: int
    var dirs: seq<Name>
    var symlinks: seq<Name>
    var emptyFiles: seq<Name>
    var files: array<FileEntry>

    constructor (majorVersion: Name, chunkSize: ChunkSize, hash: Checksum)
      ensures this.majorVersion == majorVersion && this.chunkSize == chunkSize && this.hash == hash
      ensures fresh(files)
    {
      this.majorVersion, this.chunkSize, this.hash := majorVersion, chunkSize, hash;
      checksum, chunkCount, dirs, symlinks, emptyFiles := 0, 0, [], [], [];
      files := new FileEntry[0];
    }

    function ToWire(): Wire
      reads this, files
    {
      Wire(majorVersion, chunkSize, checksum, chunkCount, dirs, symlinks, emptyFiles, Uncounted(files[..]))
    }

    /** The manifest of a walked directory: its plan, the plan's checksum and length, and counters
        equal to the number of ranges of each file. */
    method GetManifestFromStorage(walked: seq<Entry>, maxFiles: int) returns (plan: seq<Chunk>)
      requires Entries(Collect(walked).files)
      modifies this
      ensures fresh(files)
      ensures IsPlanOf(Collect(walked).files, Uncounted(files[..]), chunkSize, maxFiles, plan)
      ensures Counted(files[..], plan, [])
      ensures checksum == hash(Uncounted(files[..]), plan) && chunkCount == |plan|
      ensures Keeps(walked, dirs, symlinks, emptyFiles, Uncounted(files[..]))
    {
      hide IsPlanOf, Counted, Entries;
      dirs, symlinks, emptyFiles := [], [], [];
      var list: seq<FileEntry> := [];
      var k := 0;
      while k < |walked|
        invariant 0 <= k <= |walked| && Lists(dirs, symlinks, emptyFiles, list) == Collect(walked[..k])
      {
        assert walked[..k + 1][..k] == walked[..k];
        match walked[k] {
          case Dir(name) => dirs := dirs + [name];
          case Symlink(name) => symlinks := symlinks + [name];
          case EmptyFile(name) => emptyFiles := emptyFiles + [name];
          case File(f) => list := list + [f.(remaining := 0)];
        }
        k := k + 1;
      }
      assert walked[..k] == walked;
      plan := Rebuild(list, maxFiles);
      CollectKeeps(walked);
      SortedKeeps(walked, Uncounted(files[..]), chunkSize, maxFiles, plan);
      checksum := hash(Uncounted(files[..]), plan);
      chunkCount := |plan|;
    }

    /** Sorts the files into a new list and cuts them into chunks. */
    method Rebuild(list: seq<FileEntry>, maxFiles: int) returns (plan: seq<Chunk>)
      requires Entries(list)
      modifies this`files
      ensures fresh(files)
      ensures IsPlanOf(list, Uncounted(files[..]), chunkSize, maxFiles, plan)
      ensures Counted(files[..], plan, [])
    {
      hide *;
      var copy := new FileEntry[|list|](k requires 0 <= k < |list| => list[k]);
      assert copy[..] == list;
      plan := BuildChunks(copy, chunkSize, maxFiles);
      files := copy;
      PlanOfCounted(list, files[..], chunkSize, maxFiles, plan);
    }

    /** A received manifest is accepted if and only if it passes the four checks, the last two against
        the plan rebuilt from its file list; a rejected one leaves the node's manifest as it was. */
    method GetManifestFromPeer(received: Result<Wire>, maxFiles: int)
      returns (r: Result<seq<Chunk>>, ghost sorted: seq<FileEntry>, ghost plan: seq<Chunk>)
      requires received.Ok? ==> Entries(received.value.files)
      modifies this
      ensures received.Err? ==> r == Err(received.error)
      ensures r.Err? ==> unchanged(this)
      ensures received.Ok? && received.value.majorVersion == majorVersion && received.value.chunkSize == chunkSize ==>
                IsPlanOf(received.value.files, sorted, chunkSize, maxFiles, plan)
      ensures received.Ok? ==>
                var w := received.value;
                && (w.majorVersion != majorVersion ==> r == Err(MajorVersionDiffers))
                && (w.majorVersion == majorVersion && w.chunkSize != chunkSize ==> r == Err(ChunkSizeDiffers))
                && (w.majorVersion == majorVersion && w.chunkSize == chunkSize ==>
                      && (w.checksum != hash(sorted, plan) ==> r == Err(ChecksumDiffers))
                      && (w.checksum == hash(sorted, plan) ==>
                            r == if w.chunkCount == |plan| then Ok(plan) else Err(ChunkCountDiffers)))
      ensures received.Ok? ==>
                (r.Ok? <==> Acceptance(received.value, majorVersion, chunkSize, hash(sorted, plan), |plan|).Ok?)
      ensures r.Ok? ==> fresh(files) && Uncounted(files[..]) == sorted && Counted(files[..], plan, [])
      ensures r.Ok? ==> ToWire() == received.value.(files := sorted)
    {
      hide IsPlanOf, Counted, Entries, Fit, Tiling, GreedyPlan, SortedByName;
      sorted, plan := [], [];
      if received.Err? {
        return Err(received.error), sorted, plan;
      }
      var w := received.value;
      if w.majorVersion != majorVersion {
        return Err(MajorVersionDiffers), sorted, plan;
      }
      if w.chunkSize != chunkSize {
        return Err(ChunkSizeDiffers), sorted, plan;
      }
      var copy := new FileEntry[|w.files|](k requires 0 <= k < |w.files| => w.files[k]);
      assert copy[..] == w.files;
      var chunks := BuildChunks(copy, chunkSize, maxFiles);
      PlanOfCounted(w.files, copy[..], chunkSize, maxFiles, chunks);
      sorted, plan := Uncounted(copy[..]), chunks;
      if w.checksum != hash(Uncounted(copy[..]), chunks) {
        return Err(ChecksumDiffers), sorted, plan;
      }
      if w.chunkCount != |chunks| {
        return Err(ChunkCountDiffers), sorted, plan;
      }
      checksum, chunkCount := w.checksum, w.chunkCount;
      dirs, symlinks, emptyFiles, files := w.dirs, w.symlinks, w.emptyFiles, copy;
      r := Ok(chunks);
    }
  }

  lemma SortedKeeps(walked: seq<Entry>, sorted: seq<FileEntry>, chunkSize: int, maxFiles: int, plan: seq<Chunk>)
    requires var l := Collect(walked); Keeps(walked, l.dirs, l.symlinks, l.emptyFiles, l.files)
    requires IsPlanOf(Collect(walked).files, sorted, chunkSize, maxFiles, plan)
    ensures var l := Collect(walked); Keeps(walked, l.dirs, l.symlinks, l.emptyFiles, sorted)
  {
    hide InWalkOrder, PositionsOf, Tiling, GreedyPlan, Fit, Collect;
  }

  lemma PlanOfCounted(list: seq<FileEntry>, files: seq<FileEntry>, chunkSize: int, maxFiles: int, plan: seq<Chunk>)
    requires SortedByName(files) && multiset(Uncounted(files)) == multiset(list)
    requires Tiling(Sizes(files), maxFiles, plan)
    requires Fit(Sizes(files), chunkSize) ==> GreedyPlan(Sizes(files), chunkSize, maxFiles, plan)
    ensures IsPlanOf(list, Uncounted(files), chunkSize, maxFiles, plan)
  {
    hide GreedyPlan, Tiling, Fit;
    assert Sizes(Uncounted(files)) == Sizes(files);
  }

  /** However the files are listed, distinct names leave one sorted list, and one plan of it. */
  lemma PlanAgreement(a: seq<FileEntry>, sortedA: seq<FileEntry>, planA: seq<Chunk>,
                      b: seq<FileEntry>, sortedB: seq<FileEntry>, planB: seq<Chunk>, chunkSize: int, maxFiles: int)
    requires multiset(a) == multiset(b) && DistinctNames(sortedA)
    requires IsPlanOf(a, sortedA, chunkSize, maxFiles, planA) && IsPlanOf(b, sortedB, chunkSize, maxFiles, planB)
    ensures sortedA == sortedB && (Fit(Sizes(sortedA), chunkSize) ==> planA == planB)
  {
    hide Fit, GreedyPlan, Tiling;
    SortedIsUnique(sortedA, sortedB);
    if Fit(Sizes(sortedA), chunkSize) {
      GreedyPlanIsUnique(Sizes(sortedA), chunkSize, maxFiles, planA, planB);
    }
  }

  /** The wire form of a manifest built from a storage. */
  ghost predicate Sent(w: Wire, hash: Checksum, plan: seq<Chunk>, maxFiles: int) {
    && IsPlanOf(w.files, w.files, w.chunkSize, maxFiles, plan)
    && w.checksum == hash(w.files, plan) && w.chunkCount == |plan|
  }

  lemma DistinctNamesStay(a: seq<FileEntry>, b: seq<FileEntry>)
    requires DistinctNames(a) && multiset(a) == multiset(b)
    ensures DistinctNames(b)
  {
    forall i, j | 0 <= i < j < |b| && b[i].name == b[j].name ensures false {
      assert b[i] in multiset(a) && b[j] in multiset(a);
      TwiceInMultiset(b, i, j);
      OnceInMultiset(a, b[i]);
    }
  }

  /** Equal entries with counters of the same plan are equal. */
  lemma CountersAgree(a: seq<FileEntry>, b: seq<FileEntry>, plan: seq<Chunk>)
    requires Uncounted(a) == Uncounted(b) && Counted(a, plan, []) && Counted(b, plan, [])
    ensures a == b
  {
    forall k | 0 <= k < |a| ensures a[k] == b[k] {
      assert Uncounted(a)[k] == Uncounted(b)[k];
    }
  }

  /** What a storage gave satisfies `Sent`, and the receiver can plan with it. */
  lemma StoredIsSent(listed: seq<FileEntry>, w: Wire, hash: Checksum, plan: seq<Chunk>, maxFiles: int)
    requires IsPlanOf(listed, w.files, w.chunkSize, maxFiles, plan) && Entries(listed) && DistinctNames(listed)
    requires w.checksum == hash(w.files, plan) && w.chunkCount == |plan|
    ensures Sent(w, hash, plan, maxFiles) && Entries(w.files) && DistinctNames(w.files)
  {
    hide Fit, Tiling, GreedyPlan;
    DistinctNamesStay(listed, w.files);
    PermutationFits(listed, w.files);
  }

  /** From one node's storage over the wire to another node with the same version, chunk size, files per
      chunk and hash: the manifest is accepted, and the receiver ends with the sender's lists, file order,
      chunks and counters. The file order agrees whatever the sizes are, the chunks if no sum wraps. */
  method Handshake(sender: Manifest, receiver: Manifest, walked: seq<Entry>, maxFiles: int)
    returns (r: Result<seq<Chunk>>, ghost plan: seq<Chunk>)
    requires sender != receiver
    requires receiver.majorVersion == sender.majorVersion && receiver.chunkSize == sender.chunkSize
    requires receiver.hash == sender.hash
    requires Entries(Collect(walked).files) && DistinctNames(Collect(walked).files)
    modifies sender, receiver
    ensures IsPlanOf(Collect(walked).files, Uncounted(sender.files[..]), sender.chunkSize, maxFiles, plan)
    ensures Fit(Sizes(sender.files[..]), sender.chunkSize) ==> r == Ok(plan)
    ensures r.Ok? ==> receiver.ToWire() == sender.ToWire()
    ensures r == Ok(plan) ==> receiver.files[..] == sender.files[..]
    ensures r.Ok? ==>
              Keeps(walked, receiver.dirs, receiver.symlinks, receiver.emptyFiles, Uncounted(receiver.files[..]))
  {
    hide IsPlanOf, Counted, Entries, DistinctNames, Sent, Fit, Keeps;
    var chunks := sender.GetManifestFromStorage(walked, maxFiles);
    plan := chunks;
    var w := sender.ToWire();
    StoredIsSent(Collect(walked).files, w, sender.hash, plan, maxFiles);
    ghost var sorted;
    ghost var rebuilt;
    r, sorted, rebuilt := receiver.GetManifestFromPeer(Ok(w), maxFiles);
    AcceptsSent(w, sender.hash, plan, maxFiles, sorted, rebuilt, sender.majorVersion, sender.chunkSize);
    assert Sizes(w.files) == Sizes(sender.files[..]);
    if r == Ok(plan) {
      CountersAgree(sender.files[..], receiver.files[..], plan);
    }
  }

  lemma AcceptsSent(w: Wire, hash: Checksum, plan: seq<Chunk>, maxFiles: int, sorted: seq<FileEntry>,
                 rebuilt: seq<Chunk>, majorVersion: Name, chunkSize: int)
    requires Sent(w, hash, plan, maxFiles) && DistinctNames(w.files)
    requires w.majorVersion == majorVersion && w.chunkSize == chunkSize
    requires IsPlanOf(w.files, sorted, chunkSize, maxFiles, rebuilt)
    ensures sorted == w.files
    ensures Fit(Sizes(w.files), chunkSize) ==>
              rebuilt == plan && Acceptance(w, majorVersion, chunkSize, hash(sorted, rebuilt), |rebuilt|) == Ok(())
  {
    hide Fit, DistinctNames;
    PlanAgreement(w.files, w.files, plan, w.files, sorted, rebuilt, chunkSize, maxFiles);
  }

  ghost predicate Injective(hash: Checksum) {
    forall f, p, g, q | hash(f, p) == hash(g, q) :: f == g && p == q
  }

  /** Without hash collisions, a node accepts a sent manifest if and only if version and chunk size
      agree and its own files-per-chunk leads to the very same file list and chunk list. */
  lemma HandshakeIsSound(w: Wire, hash: Checksum, plan: seq<Chunk>, maxFiles: int, ownMaxFiles: int,
                         sorted: seq<FileEntry>, rebuilt: seq<Chunk>, majorVersion: Name, chunkSize: int)
    requires Sent(w, hash, plan, maxFiles) && Injective(hash)
    requires IsPlanOf(w.files, sorted, chunkSize, ownMaxFiles, rebuilt)
    ensures Acceptance(w, majorVersion, chunkSize, hash(sorted, rebuilt), |rebuilt|).Ok?
       <==> w.majorVersion == majorVersion && w.chunkSize == chunkSize && sorted == w.files && rebuilt == plan
  {
  }
}
