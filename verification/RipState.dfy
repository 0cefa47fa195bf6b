/**
 The per-rip state of bot/ripstate.go as an object: the registered paths, this rip's claims on
 files, and the flush cursor, next to the shared in-use registry and the download folder. What
 other goroutines do while a method has dropped its locks is passed in as arguments.
 */
module RipStates {
  import opened InUseRegistry
  import opened FlushCursor

  /** The download folder, as the set of files on disk. */
  class Disk {
    var present: set<Key>

    constructor (present: set<Key>)
      ensures this.present == present
    {
      this.present := present;
    }

    method Remove(k: Key, succeeds: bool)
      modifies this
      ensures present == if succeeds then old(present) - {k} else old(present)
    {
      if succeeds {
        present := present - {k};
      }
    }
  }

  class RipState {
    const files: InUseFiles
    const threshold: int
    const flushSet: bool            // a flush callback is installed
    const stageOnly: bool
    var paths: seq<Path>
    var held: Counts
    var flushStart: nat
    var measuredIdx: nat
    var pendingBytes: int
    var flushSeq: nat
    var flushedAny: bool
    ghost var sent: seq<Chunk>      // the chunks whose delivery succeeded

    constructor (files: InUseFiles, threshold: int, flushSet: bool, stageOnly: bool)
      requires Positive(files.ref)
      ensures Valid() && this.files == files && this.threshold == threshold
      ensures this.flushSet == flushSet && this.stageOnly == stageOnly
      ensures Cur() == Cursor([], 0, 0, 0, 0, false) && held == map[] && sent == []
    {
      this.files, this.threshold, this.flushSet, this.stageOnly := files, threshold, flushSet, stageOnly;
      paths, held, sent := [], map[], [];
      flushStart, measuredIdx, pendingBytes, flushSeq, flushedAny := 0, 0, 0, 0, false;
      new;
      WeightZero(map[], files.norm);
    }

    function Cur(): Cursor
      reads this
    {
      Cursor(paths, flushStart, measuredIdx, pendingBytes, flushSeq, flushedAny)
    }

    /** The global count knows every claim of this rip. */
    ghost predicate Backed()
      reads `held, files
    {
      && Positive(held) && "" !in held && Positive(files.ref)
      && Covers(files.ref, held, files.norm)
    }

    /** What the rest of the process claims on a file. */
    ghost function Others(k: Key): int
      reads `held, files
    {
      Get(files.ref, k) - Weight(held, k, files.norm)
    }

    ghost predicate Valid()
      reads this, files
    {
      && Backed()
      && InBounds(Cur())
      && Flatten(sent) == paths[..flushStart]
      && |sent| == flushSeq && Numbered(sent)
    }

    // ---- claims -----------------------------------------------------------

    method Retain(p: Path)
      requires Backed()
      modifies this`held, files
      ensures Backed()
      ensures held == if p == "" then old(held) else Inc(old(held), p)
      ensures forall k :: Others(k) == old(Others(k))
    {
      if p == "" {
        return;
      }
      TakeUp(files.ref, held, p, files.norm);
      held := held[p := Get(held, p) + 1];
      files.RetainInUse(p);
    }

    method ReleaseHeld(p: Path) returns (remaining: nat, had: bool)
      requires Backed()
      modifies this`held, files
      ensures Backed()
      ensures had == (p != "" && p in old(held))
      ensures held == if had then Dec(old(held), p) else old(held)
      ensures remaining == if had then Get(files.ref, files.norm(p)) else 0
      ensures forall k :: Others(k) == old(Others(k))
      ensures forall k :: k != files.norm(p) ==> Get(files.ref, k) == old(Get(files.ref, k))
      ensures Get(files.ref, files.norm(p)) <= old(Get(files.ref, files.norm(p)))
    {
      remaining, had := 0, false;
      if p == "" {
        return;
      }
      if Get(held, p) > 0 {
        GiveBack(files.ref, held, p, files.norm);
        held := held[p := held[p] - 1];
        if held[p] == 0 {
          held := held - {p};
        }
        assert held == Dec(old(held), p);
        had := true;
      }
      if had {
        remaining := files.ReleaseInUse(p);
      }
    }

    /** Every held path, as often as it is held. */
    method HeldList() returns (list: seq<Path>)
      requires Backed()
      ensures Lists(list, held)
    {
      list := [];
      var keys := held.Keys;
      while keys != {}
        invariant keys <= held.Keys
        invariant forall p :: multiset(list)[p] == if p in keys then 0 else Get(held, p)
        decreases keys
      {
        var p :| p in keys;
        ghost var before := multiset(list);
        for i := 0 to held[p]
          invariant multiset(list) == before[p := i]
        {
          list := list + [p];
        }
        keys := keys - {p};
      }
      CountedIsListed(list, held);
    }

    /** Drops every claim of this rip; everybody else's stay as they are. Running it again changes nothing. */
    method ReleaseAllHeld()
      requires Backed()
      modifies this`held, files
      ensures Backed() && held == map[]
      ensures forall k :: Get(files.ref, k) == old(Others(k))
    {
      var list := HeldList();
      ghost var left := held;
      held := map[];
      for i := 0 to |list|
        invariant held == map[] && Positive(files.ref) && Positive(left) && "" !in left
        invariant Lists(list[i..], left)
        invariant forall k :: Get(files.ref, k) - Weight(left, k, files.norm) == old(Others(k))
        invariant Covers(files.ref, left, files.norm)
      {
        assert list[i..][1..] == list[i + 1..];
        GiveBack(files.ref, left, list[i], files.norm);
        left := Dec(left, list[i]);
        var _ := files.ReleaseInUse(list[i]);
      }
      WeightZero(map[], files.norm);
    }

    // ---- registering and delivering ---------------------------------------

    method AddPath(p: Path)
      requires Valid()
      modifies this, files
      ensures Valid() && Cur() == Added(old(Cur()), p) && sent == old(sent)
      ensures held == if p == "" then old(held) else Inc(old(held), p)
      ensures forall k :: Others(k) == old(Others(k))
    {
      paths := paths + [p];
      assert paths[..flushStart] == old(paths)[..flushStart];
      Retain(p);
    }

    /** What other goroutines register while this one holds no lock. */
    method AddPaths(more: seq<Path>)
      requires Valid()
      modifies this, files
      ensures Valid() && Cur() == old(Cur()).(paths := old(paths) + more) && sent == old(sent)
      ensures forall k :: Others(k) == old(Others(k))
    {
      for i := 0 to |more|
        invariant Valid() && Cur() == old(Cur()).(paths := old(paths) + more[..i]) && sent == old(sent)
        invariant forall k :: Others(k) == old(Others(k))
      {
        assert more[..i + 1] == more[..i] + [more[i]];
        AddPath(more[i]);
      }
      assert more[..|more|] == more;
    }

    method MeasurePending(size: Path -> nat)
      requires Valid()
      modifies this`measuredIdx, this`pendingBytes
      ensures Valid() && Cur() == Measured(old(Cur()), size)
    {
      if measuredIdx < flushStart {
        measuredIdx := flushStart;
      }
      ghost var start := measuredIdx;
      assert paths[start..start] == [];
      while measuredIdx < |paths|
        invariant start <= measuredIdx <= |paths|
        invariant pendingBytes == old(pendingBytes) + SizeOf(paths[start..measuredIdx], size)
      {
        SizeOfNext(paths, start, measuredIdx, size);
        pendingBytes := pendingBytes + size(paths[measuredIdx]);
        measuredIdx := measuredIdx + 1;
      }
      assert paths[start..|paths|] == paths[start..];
    }

    /** One file of a delivered chunk: give the claim back, then unlink unless somebody needs it. */
    method RemoveFlushedFile(p: Path, disk: Disk, unlinks: Key -> bool)
      requires Backed() && p != ""
      modifies this`held, files, disk
      ensures Backed()
      ensures held == if p in old(held) then Dec(old(held), p) else old(held)
      ensures forall k :: Others(k) == old(Others(k))
      ensures forall k :: k != files.norm(p) ==> Get(files.ref, k) == old(Get(files.ref, k))
      ensures Get(files.ref, files.norm(p)) <= old(Get(files.ref, files.norm(p)))
      ensures disk.present == if unlinks(files.norm(p)) && Get(files.ref, files.norm(p)) == 0
                              then old(disk.present) - {files.norm(p)} else old(disk.present)
    {
      var remaining, had := ReleaseHeld(p);
      if had && remaining > 0 {
        return;
      }
      var used := files.IsInUse(p);
      if used {
        return;
      }
      disk.Remove(files.norm(p), unlinks(files.norm(p)));
    }

    /**
     Gives back the claims on a delivered chunk and unlinks what nobody else needs: a file goes
     only if its count reached zero, and every file of the chunk whose count did goes, unless the
     unlink itself fails.
     */
    method RemoveFlushedFiles(chunk: seq<Path>, disk: Disk, unlinks: Key -> bool)
      requires Backed()
      modifies this`held, files, disk
      ensures Backed()
      ensures forall k :: Others(k) == old(Others(k))
      ensures held == Without(old(held), chunk)
      ensures disk.present <= old(disk.present)
      ensures forall k :: k in old(disk.present) - disk.present ==> Get(files.ref, k) == 0
      ensures forall p :: p in chunk && p != "" && unlinks(files.norm(p)) && Get(files.ref, files.norm(p)) == 0
                ==> files.norm(p) !in disk.present
    {
      for n := 0 to |chunk|
        invariant Backed()
        invariant forall k :: Others(k) == old(Others(k))
        invariant Without(held, chunk[n..]) == Without(old(held), chunk)
        invariant disk.present <= old(disk.present)
        invariant forall k :: k in old(disk.present) - disk.present ==> Get(files.ref, k) == 0
        invariant forall p :: p in chunk[..n] && p != "" && unlinks(files.norm(p)) && Get(files.ref, files.norm(p)) == 0
                    ==> files.norm(p) !in disk.present
      {
        var p := chunk[n];
        assert chunk[..n + 1] == chunk[..n] + [p];
        assert chunk[n..][1..] == chunk[n + 1..];
        if p == "" {
          continue;
        }
        RemoveFlushedFile(p, disk, unlinks);
      }
      assert chunk[..|chunk|] == chunk;
    }

    /** The bookkeeping both flush routes do after a successful delivery. */
    method Advance(chunk: Chunk, disk: Disk, unlinks: Key -> bool)
      requires Valid() && chunk.end <= |paths| && flushStart < chunk.end
      requires chunk == Chunk(paths[flushStart..chunk.end], chunk.end, flushSeq + 1)
      modifies this, files, disk
      ensures Valid() && Cur() == Delivered(old(Cur()), chunk, stageOnly)
      ensures sent == old(sent) + [chunk]
      ensures forall k :: Others(k) == old(Others(k))
      ensures forall k :: k in old(disk.present) - disk.present ==> Get(files.ref, k) == 0
    {
      RemoveFlushedFiles(chunk.files, disk, unlinks);
      assert paths[..chunk.end] == paths[..flushStart] + chunk.files;
      flushSeq := chunk.part;
      flushStart := chunk.end;
      measuredIdx := chunk.end;
      pendingBytes := 0;
      if !stageOnly {
        flushedAny := true;
      }
      sent := sent + [chunk];
      assert sent[..|sent| - 1] == old(sent);
    }

    /**
     The checkpoint at the top of a launch iteration. drained is registered while it waits for the
     running tracks, late while the chunk is being delivered, and delivers is the outcome.
     */
    method CheckpointFlush(cancelled: bool, size: Path -> nat, drained: seq<Path>, late: seq<Path>, delivers: bool,
                           disk: Disk, unlinks: Key -> bool)
      requires Valid()
      modifies this, files, disk
      ensures Valid()
      ensures forall k :: Others(k) == old(Others(k))
      ensures forall k :: k in old(disk.present) - disk.present ==> Get(files.ref, k) == 0
      ensures !flushSet || threshold <= 0 || cancelled ==> Cur() == old(Cur()) && sent == old(sent)
      ensures flushSet && threshold > 0 && !cancelled ==>
                Cur() == AfterCheckpoint(old(Cur()), size, threshold, drained, late, delivers, stageOnly)
      ensures sent == old(sent) + if flushSet && threshold > 0 && !cancelled && delivers && Cuts(old(Cur()), size, threshold, drained)
                                  then [Cut(old(Cur()).(paths := old(paths) + drained))] else []
      ensures pendingBytes < threshold || !flushSet || threshold <= 0 || cancelled
    {
      if !flushSet || threshold <= 0 {
        return;
      }
      if cancelled {
        return;
      }
      MeasurePending(size);
      if pendingBytes < threshold {
        return;
      }
      AddPaths(drained);
      MeasurePending(size);
      var chunk := Chunk(paths[flushStart..], |paths|, flushSeq + 1);
      if |chunk.files| == 0 {
        pendingBytes := 0;
        return;
      }
      assert chunk == Cut(old(Cur()).(paths := old(paths) + drained));
      AddPaths(late);
      assert paths[flushStart..chunk.end] == chunk.files;
      if !delivers {
        pendingBytes := 0;
        return;
      }
      Advance(chunk, disk, unlinks);
    }

    /** Ships everything since the last flush as one labelled chunk; reports whether it failed. */
    method FlushReleaseBoundary(cancelled: bool, late: seq<Path>, delivers: bool, disk: Disk, unlinks: Key -> bool)
      returns (failed: bool)
      requires Valid()
      modifies this, files, disk
      ensures Valid()
      ensures forall k :: Others(k) == old(Others(k))
      ensures forall k :: k in old(disk.present) - disk.present ==> Get(files.ref, k) == 0
      ensures failed == (flushSet && (cancelled || (old(flushStart) < |old(paths)| && !delivers)))
      ensures !flushSet || cancelled || old(flushStart) == |old(paths)| ==> Cur() == old(Cur()) && sent == old(sent)
      ensures flushSet && !cancelled && old(flushStart) < |old(paths)| ==>
                var met := old(Cur()).(paths := old(paths) + late);
                && Cur() == (if delivers then Delivered(met, Cut(old(Cur())), stageOnly) else met)
                && sent == (if delivers then old(sent) + [Cut(old(Cur()))] else old(sent))
    {
      if !flushSet {
        return false;
      }
      if cancelled {
        return true;
      }
      var start := flushStart;
      if start < 0 || start > |paths| {
        start := 0;
      }
      var chunk := Chunk(paths[start..], |paths|, flushSeq + 1);
      if |chunk.files| == 0 {
        return false;
      }
      AddPaths(late);
      assert paths[flushStart..chunk.end] == chunk.files;
      if !delivers {
        return true;
      }
      Advance(chunk, disk, unlinks);
      return false;
    }

    /** The delivered chunks and the remainder are together everything registered. */
    method RemainderPaths() returns (rest: seq<Path>)
      requires Valid()
      ensures Flatten(sent) + rest == paths
    {
      var start := flushStart;
      if start < 0 || start > |paths| {
        start := 0;
      }
      rest := paths[start..];
      assert paths[..start] + paths[start..] == paths;
    }

    /** Staged chunks are not deliveries to the user. */
    method DeliveredReleases() returns (n: nat)
      requires Valid()
      ensures n == if stageOnly then 0 else |sent|
    {
      if stageOnly {
        return 0;
      }
      return flushSeq;
    }
  }

  /** list names every claim in held once. */
  predicate Lists(list: seq<Path>, held: Counts)
    decreases |list|
  {
    if list == [] then held == map[] else list[0] in held && Lists(list[1..], Dec(held, list[0]))
  }

  lemma {:induction false} CountedIsListed(list: seq<Path>, held: Counts)
    requires Positive(held) && forall p :: multiset(list)[p] == Get(held, p)
    ensures Lists(list, held)
    decreases |list|
  {
    if list == [] {
      assert forall p :: p in held ==> Get(held, p) > 0;
    } else {
      assert list == [list[0]] + list[1..];
      assert multiset(list) == multiset{list[0]} + multiset(list[1..]);
      forall p ensures multiset(list[1..])[p] == Get(Dec(held, list[0]), p) {
        assert multiset(list)[p] == multiset(list[1..])[p] + if p == list[0] then 1 else 0;
      }
      CountedIsListed(list[1..], Dec(held, list[0]));
    }
  }

  /** One claim given back for each occurrence in chunk, as far as there are claims. */
  function Without(held: Counts, chunk: seq<Path>): Counts
    decreases |chunk|
  {
    if chunk == [] then held
    else Without(if chunk[0] != "" && chunk[0] in held then Dec(held, chunk[0]) else held, chunk[1..])
  }

  predicate Cuts(c: Cursor, size: Path -> nat, threshold: int, drained: seq<Path>)
    requires InBounds(c)
  {
    Measured(c, size).pending >= threshold && c.flushStart < |c.paths| + |drained|
  }

  /** Below the threshold the cursor only measures; above it a chunk is cut after the drain. */
  function AfterCheckpoint(c: Cursor, size: Path -> nat, threshold: int, drained: seq<Path>, late: seq<Path>,
                           delivers: bool, stageOnly: bool): Cursor
    requires InBounds(c)
  {
    var m := Measured(c, size);
    if m.pending < threshold then m else
      var d := Measured(m.(paths := m.paths + drained), size);
      if d.flushStart == |d.paths| then d.(pending := 0) else
        var e := d.(paths := d.paths + late);
        if delivers then Delivered(e, Cut(d), stageOnly) else e.(pending := 0)
  }
}
