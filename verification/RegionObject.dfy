/**
  The virtual memory manager as the object it is: lists, sets and arrays updated in
  place by the fault handler and msync.
 */
module RegionObject {
  import opened Blocks
  import opened Metadata
  import opened Pager
  import opened StorageObject
  import opened PagerLemmas
  import opened World
  import opened ParallelFlush
  import Store
  import ParallelFor
  import Flush

  /** The version directories of a base path. */
  class VersionDirectories {
    var versions: map<string, Version>

    constructor (versions: map<string, Version>)
      ensures this.versions == versions
    {
      this.versions := versions;
    }
  }

  class Region {
    const config: Config
    const storage: BlockStorage
    const blockIds: array<Id>
    const prot: array<Prot>
    const mem: array<Bytes>
    const maxMemBlocks: nat
    const readOnly: bool
    const capacity: nat
    const dirs: VersionDirectories
    var cleanLru: seq<nat>
    var dirtyLru: seq<nat>
    var stashSet: set<nat>
    var presentBlocks: set<nat>
    var versionPath: string

    /** The arrays are this region's own and have one entry a block; the lists name blocks of the region. */
    ghost predicate Valid()
      reads this, storage, blockIds, prot, mem
    {
      && storage.config == config && storage.Valid() && storage.temps == map[]
      && prot.Length == blockIds.Length && mem.Length == blockIds.Length
      && blockIds as object != prot && blockIds as object != mem && prot as object != mem
      && Shape(State())
    }

    ghost function State(): Pager
      reads this, storage, blockIds, prot, mem
    {
      Pager(maxMemBlocks, readOnly, blockIds[..], cleanLru, dirtyLru, stashSet, presentBlocks,
                  prot[..], mem[..], storage.State())
    }

    /** What both constructors of the source end with: an unmapped region over the given ids. */
    constructor (config: Config, disk: Store.Disk, dirs: VersionDirectories, versionPath: string,
                 capacity: nat, ids: array<Id>, maxMemBlocks: nat, readOnly: bool)
      ensures Valid() && fresh(storage) && fresh(prot) && fresh(mem) && blockIds == ids
      ensures this.config == config && this.dirs == dirs && this.versionPath == versionPath && this.capacity == capacity
      ensures State() == NewPager(config, maxMemBlocks, readOnly, ids[..], disk)
    {
      this.config, this.dirs, this.versionPath, this.capacity := config, dirs, versionPath, capacity;
      this.maxMemBlocks, this.readOnly := maxMemBlocks, readOnly;
      storage := new BlockStorage(config, disk);
      blockIds := ids;
      var protections := new Prot[ids.Length](_ => ProtNone);
      var memory := new Bytes[ids.Length](_ => Zeros(config.blockSize));
      prot, mem := protections, memory;
      cleanLru, dirtyLru, stashSet, presentBlocks := [], [], {}, {};
      new;
      assert prot[..] == seq(|ids[..]|, _ => ProtNone);
      assert mem[..] == seq(|ids[..]|, _ => Zeros(config.blockSize));
    }

    /** `exited`: there is nothing to evict. */
    method EvictIfNeeded() returns (exited: bool)
      requires Valid()
      modifies this`cleanLru, this`dirtyLru, this`stashSet, this`presentBlocks, storage, prot, mem
      ensures exited <==> Evict(config, old(State())).None?
      ensures !exited ==> Valid() && Evict(config, old(State())) == Some(State())
    {
      exited := false;
      if |presentBlocks| >= maxMemBlocks {
        var toEvict: nat;
        if |cleanLru| > 0 {
          toEvict := cleanLru[|cleanLru| - 1];
          cleanLru := cleanLru[..|cleanLru| - 1];
        } else if |dirtyLru| > 0 {
          toEvict := dirtyLru[|dirtyLru| - 1];
          dirtyLru := dirtyLru[..|dirtyLru| - 1];
          storage.StashBlock(mem[toEvict], toEvict);
          stashSet := stashSet + {toEvict};
        } else {
          return true;
        }
        DropPage(toEvict);
      }
    }

    /** mprotect to PROT_NONE, then madvise(MADV_DONTNEED). */
    method DropPage(blockIndex: nat)
      requires Valid() && blockIndex < blockIds.Length
      modifies this`presentBlocks, prot, mem
      ensures Valid() && State() == Unmap(config, old(State()), blockIndex)
    {
      prot[blockIndex] := ProtNone;
      mem[blockIndex] := Zeros(config.blockSize);
      presentBlocks := presentBlocks - {blockIndex};
    }

    /** `exited`: the resident block cannot be unstashed. */
    method FaultOnResident(blockIndex: nat, isWriteFault: bool) returns (exited: bool)
      requires Valid() && blockIndex < blockIds.Length
      modifies this`cleanLru, this`dirtyLru, this`stashSet, storage, prot
      ensures exited <==> FaultPresent(old(State()), blockIndex, isWriteFault).None?
      ensures !exited ==> Valid() && FaultPresent(old(State()), blockIndex, isWriteFault) == Some(State())
    {
      ghost var n := blockIds.Length;
      if isWriteFault {
        RemoveKeepsRange(cleanLru, blockIndex, n);
        cleanLru := Remove(cleanLru, blockIndex);
        dirtyLru := [blockIndex] + dirtyLru;
        if blockIndex in stashSet {
          var ok := storage.UnstashBlock(blockIndex);
          if !ok {
            return true;
          }
          stashSet := stashSet - {blockIndex};
        }
      }
      prot[blockIndex] := ProtReadWrite;
      exited := false;
    }

    /** Read an absent block's backing file into a temporary buffer. `exited`: the file is not there. */
    method ReadBacking(blockIndex: nat) returns (exited: bool, buffer: Bytes)
      requires Valid() && blockIndex < blockIds.Length
      modifies storage
      ensures exited <==> Fetch(config, old(State()), blockIndex).None?
      ensures !exited ==> Valid() && Fetch(config, old(State()), blockIndex) == Some((storage.State(), buffer))
      ensures !exited ==> storage.stashBlockIds == old(storage.stashBlockIds)
    {
      buffer := mem[blockIndex];
      if blockIndex in storage.stashBlockIds {
        var uuid := storage.stashBlockIds[blockIndex];
        if uuid !in storage.stash {
          return true, buffer;
        }
        return false, storage.stash[uuid];
      } else if blockIds[blockIndex] != EmptyBlockHash() {
        var hash := blockIds[blockIndex];
        var missing, tier := storage.GetBlockFullPath(blockIndex, hash);
        if missing || File(tier, hash) !in storage.files {
          return true, buffer;
        }
        return false, storage.files[File(tier, hash)];
      }
      exited := false;
    }

    method MapBlockIn(blockIndex: nat, isWriteFault: bool) returns (exited: bool)
      requires Valid() && blockIndex < blockIds.Length
      modifies this`cleanLru, this`dirtyLru, this`stashSet, this`presentBlocks, storage, prot, mem
      ensures exited <==> MapIn(config, old(State()), blockIndex, isWriteFault).None?
      ensures !exited ==> Valid() && MapIn(config, old(State()), blockIndex, isWriteFault) == Some(State())
    {
      var stashed := blockIndex in storage.stashBlockIds;
      var missing, buffer := ReadBacking(blockIndex);
      if missing {
        return true;
      }
      exited := false;
      mem[blockIndex] := buffer;
      prot[blockIndex] := if isWriteFault then ProtWrite else ProtRead;
      if stashed && isWriteFault {
        var ok := storage.UnstashBlock(blockIndex);
        stashSet := stashSet - {blockIndex};
      }
      if isWriteFault {
        dirtyLru := [blockIndex] + dirtyLru;
      } else {
        cleanLru := [blockIndex] + cleanLru;
      }
      presentBlocks := presentBlocks + {blockIndex};
    }

    /** The SIGSEGV handler. `exited`: a write on a read-only region, or an I/O error. */
    method Handler(startAddress: nat, faultAddress: nat, isWriteFault: bool) returns (exited: bool)
      requires Valid() && config.blockSize > 0 && startAddress <= faultAddress
      requires (faultAddress - startAddress) / config.blockSize < blockIds.Length
      modifies this`cleanLru, this`dirtyLru, this`stashSet, this`presentBlocks, storage, prot, mem
      ensures var b := (faultAddress - startAddress) / config.blockSize;
              && (exited <==> HandleFault(config, old(State()), b, isWriteFault).None?)
              && (!exited ==> Valid() && HandleFault(config, old(State()), b, isWriteFault) == Some(State()))
    {
      var blockIndex := (faultAddress - startAddress) / config.blockSize;
      if readOnly && isWriteFault {
        return true;
      }
      if blockIndex in presentBlocks {
        exited := FaultOnResident(blockIndex, isWriteFault);
      } else {
        exited := EvictIfNeeded();
        if exited {
          return;
        }
        exited := MapBlockIn(blockIndex, isWriteFault);
      }
    }

    /** One store task of msync. */
    method StoreDirtyBlock(blockIndex: nat)
      requires Valid() && HashesAreIds(config) && blockIndex < blockIds.Length
      modifies this`cleanLru, storage, blockIds, prot
      ensures Valid() && State() == Flush.StoreTask(config, old(State()), blockIndex)
    {
      var blockHash := storage.StoreBlock(mem[blockIndex], blockIndex);
      blockIds[blockIndex] := blockHash;
      prot[blockIndex] := ProtRead;
      cleanLru := [blockIndex] + cleanLru;
    }

    /**
      The store tasks of the dirty blocks, on as many threads as the machine has.
      At each turn any worker that is not through with its chunk makes a call.
     */
    method StoreDirtyBlocks(hardwareThreads: nat) returns (ghost order: seq<nat>)
      requires Valid() && HashesAreIds(config)
      modifies this`cleanLru, this`dirtyLru, storage, blockIds, prot
      ensures Valid() && Store.InRange(order, blockIds.Length) && multiset(order) == multiset(old(dirtyLru))
      ensures State() == Flush.StoreTasks(config, old(State()), order, |order|).(dirty := [])
    {
      var dirtyLruVector := dirtyLru;
      var workers := ParallelFor.MakeChunks(|dirtyLruVector|, hardwareThreads);
      var next: seq<nat> := ParallelFor.Start(workers).next;
      ghost var start := State();
      ghost var visited: seq<nat> := [];
      order := [];
      ProgressStarts(dirtyLruVector, workers, next);
      while exists w :: 0 <= w < |workers| && next[w] < workers[w].end
        invariant Valid() && dirtyLru == dirtyLruVector && |next| == |workers|
        invariant Progress(dirtyLruVector, workers, next, visited, order)
        invariant StoredSoFar(config, start, order, State())
        decreases ParallelFor.Remaining(workers, next)
      {
        var w :| 0 <= w < |workers| && next[w] < workers[w].end;
        ProgressCall(dirtyLruVector, workers, next, visited, order, w);
        var block := dirtyLruVector[next[w]];
        StoredNext(config, start, order, State(), block);
        StoreDirtyBlock(block);
        visited, order, next := visited + [next[w]], order + [block], next[w := next[w] + 1];
      }
      ProgressEnds(dirtyLruVector, workers, next, visited, order);
      dirtyLru := [];
    }

    /** The stash set as a list. */
    method StashVector() returns (stashVector: seq<nat>)
      requires Valid()
      ensures multiset(stashVector) == multiset(stashSet) && Store.InRange(stashVector, blockIds.Length)
    {
      stashVector := [];
      var rest := stashSet;
      while rest != {}
        invariant rest <= stashSet && Store.InRange(stashVector, blockIds.Length)
        invariant multiset(stashVector) + multiset(rest) == multiset(stashSet)
      {
        var block :| block in rest;
        assert multiset(rest) == multiset(rest - {block}) + multiset{block};
        stashVector, rest := stashVector + [block], rest - {block};
      }
    }

    /** One commit task of msync. `exited`: it does not find its stash file. */
    method CommitStashedBlock(blockIndex: nat) returns (exited: bool)
      requires Valid() && HashesAreIds(config) && blockIndex < blockIds.Length
      modifies storage, blockIds
      ensures exited <==> Store.CommitNext(config, Some(old(State()).store), blockIndex).None?
      ensures !exited ==>
                && Valid() && Store.CommitNext(config, Some(old(State()).store), blockIndex) == Some(storage.State())
                && blockIds[..]
                   == old(blockIds[..])[blockIndex := Store.StashedId(config, old(State()).store, blockIndex)]
    {
      var blockHash;
      exited, blockHash := storage.CommitStashBlock(blockIndex);
      if !exited {
        blockIds[blockIndex] := blockHash;
      }
    }

    /** The commit tasks of the stashed blocks, likewise. When one exits, `commits` goes on to any order of the rest. */
    method CommitStashedBlocks(hardwareThreads: nat) returns (exited: bool, ghost commits: seq<nat>)
      requires Valid() && HashesAreIds(config)
      modifies this`stashSet, storage, blockIds
      ensures multiset(commits) == multiset(old(stashSet))
      ensures exited ==> Store.CommitAll(config, old(State()).store, commits, |commits|).None?
      ensures !exited ==>
                && Valid() && Store.InRange(commits, blockIds.Length) && stashSet == {}
                && Store.CommitAll(config, old(State()).store, commits, |commits|) == Some(storage.State())
                && blockIds[..] == Store.CommitIds(config, old(State()).store, old(State()).ids, commits, |commits|)
    {
      var stashVector := StashVector();
      var workers := ParallelFor.MakeChunks(|stashVector|, hardwareThreads);
      var next: seq<nat> := ParallelFor.Start(workers).next;
      ghost var start := State();
      ghost var visited: seq<nat> := [];
      commits := [];
      exited := false;
      ProgressStarts(stashVector, workers, next);
      while exists w :: 0 <= w < |workers| && next[w] < workers[w].end
        invariant Valid() && |next| == |workers|
        invariant Progress(stashVector, workers, next, visited, commits)
        invariant CommittedSoFar(config, start, commits, storage.State(), blockIds[..])
        decreases ParallelFor.Remaining(workers, next)
      {
        var w :| 0 <= w < |workers| && next[w] < workers[w].end;
        ProgressCall(stashVector, workers, next, visited, commits, w);
        var block := stashVector[next[w]];
        ghost var store, ids := storage.State(), blockIds[..];
        exited := CommitStashedBlock(block);
        visited, next := visited + [next[w]], next[w := next[w] + 1];
        if exited {
          ghost var rest := ProgressCompletes(stashVector, workers, next, visited, commits + [block]);
          ExitIsFinal(config, start, commits, store, ids, block, rest);
          commits := commits + [block] + rest;
          return;
        }
        CommittedNext(config, start, commits, store, ids, block, storage.State(), blockIds[..]);
        commits := commits + [block];
      }
      ProgressEnds(stashVector, workers, next, visited, commits);
      stashSet := {};
    }

    /** `exited`: there is no metadata file to write. */
    method UpdateMetadata() returns (exited: bool)
      requires Valid() && AllIds(blockIds[..])
      modifies dirs
      ensures exited <==> WriteMetadata(old(dirs.versions), versionPath, State()).None?
      ensures !exited ==> WriteMetadata(old(dirs.versions), versionPath, State()) == Some(dirs.versions)
    {
      exited := false;
      if presentBlocks == {} {
        return;
      }
      ghost var highest := Highest(presentBlocks);
      assert highest in presentBlocks;
      var maxBlock :| maxBlock in presentBlocks && forall x | x in presentBlocks :: x <= maxBlock;
      var numBlocks := maxBlock + 1;
      var blocksBytes := FillBuffer(blockIds, numBlocks);
      if versionPath !in dirs.versions || dirs.versions[versionPath].metadata.None? {
        return true;
      }
      var version := dirs.versions[versionPath];
      var file := Overlay(version.metadata.value, blocksBytes[..]);
      dirs.versions := dirs.versions[versionPath := version.(metadata := Some(file))];
    }

    /** Write everything back. `exited`: a stash file is missing. */
    method FlushBlocks(hardwareThreads: nat) returns (exited: bool, ghost order: seq<nat>, ghost commits: seq<nat>)
      requires Valid() && HashesAreIds(config) && AllIds(blockIds[..])
      modifies this`cleanLru, this`dirtyLru, this`stashSet, storage, blockIds, prot
      ensures Flush.Orders(old(State()), order, commits) && FlushReady(old(State()), order, commits)
      ensures exited ==> Flush.MSync(config, old(State()), order, commits).None?
      ensures !exited ==>
                Valid() && Flush.MSync(config, old(State()), order, commits) == Some(State()) && AllIds(blockIds[..])
    {
      ghost var start := State();
      order := StoreDirtyBlocks(hardwareThreads);
      ghost var stored := State();
      IdsStayIds(config, start, order, |order|);
      exited, commits := CommitStashedBlocks(hardwareThreads);
      Flush.OrdersInRange(start, order, commits);
      if !exited {
        CommittedIdsAreIds(config, stored.store, stored.ids, commits, |commits|);
      }
    }

    /** msync: flush, then write the metadata of the version the region is directed to. */
    method MSync(hardwareThreads: nat) returns (exited: bool, ghost order: seq<nat>, ghost commits: seq<nat>)
      requires Valid() && HashesAreIds(config) && AllIds(blockIds[..])
      modifies this`cleanLru, this`dirtyLru, this`stashSet, storage, blockIds, prot, dirs
      ensures Flush.Orders(old(State()), order, commits) && FlushReady(old(State()), order, commits)
      ensures exited <==> SyncTo(config, old(dirs.versions), versionPath, old(State()), order, commits).None?
      ensures !exited ==>
                && Valid() && AllIds(blockIds[..])
                && SyncTo(config, old(dirs.versions), versionPath, old(State()), order, commits)
                   == Some((dirs.versions, State()))
    {
      exited, order, commits := FlushBlocks(hardwareThreads);
      if !exited {
        exited := UpdateMetadata();
      }
    }

    /** Snapshot: false exactly when the version has a metadata file; else msync into it. */
    method Snapshot(path: string, hardwareThreads: nat)
      returns (exited: bool, ok: bool, ghost order: seq<nat>, ghost commits: seq<nat>)
      requires Valid() && HashesAreIds(config) && AllIds(blockIds[..])
      modifies this`cleanLru, this`dirtyLru, this`stashSet, this`versionPath, storage, blockIds, prot, dirs
      ensures FlushReady(old(State()), order, commits)
      ensures ok || exited ==> Flush.Orders(old(State()), order, commits)
      ensures !exited ==> (ok <==> !(path in old(dirs.versions) && old(dirs.versions)[path].metadata.Some?))
      ensures ok ==> path in dirs.versions && IsComplete(dirs.versions[path])
      ensures ok ==> CapacityOf(dirs.versions[path]) == capacity
      ensures !ok && !exited ==> dirs.versions == old(dirs.versions) && State() == old(State())
      ensures exited <==> SnapshotTo(config, old(dirs.versions), path, capacity, old(State()), order, commits).None?
      ensures !exited ==>
                && Valid() && AllIds(blockIds[..]) && versionPath == old(versionPath)
                && SnapshotTo(config, old(dirs.versions), path, capacity, old(State()), order, commits)
                   == Some((dirs.versions, State(), ok))
    {
      if path in dirs.versions && dirs.versions[path].metadata.Some? {
        return false, false, [], [];
      }
      var currentPath := versionPath;
      versionPath := path;
      dirs.versions := dirs.versions[path := Version(Some(""), Some(capacity))];
      exited, order, commits := MSync(hardwareThreads);
      versionPath := currentPath;
      ok := !exited;
    }
  }

  lemma {:induction false} IdsStayIds(c: Config, p: Pager, order: seq<nat>, n: nat)
    requires Shape(p) && Store.InRange(order, |p.ids|) && n <= |order| && HashesAreIds(c) && AllIds(p.ids)
    ensures AllIds(Flush.StoreTasks(c, p, order, n).ids)
    ensures Flush.StoreTasks(c, p, order, n).stashSet == p.stashSet
  {
    if n > 0 {
      IdsStayIds(c, p, order, n - 1);
    }
  }

  lemma {:induction false} CommittedIdsAreIds(c: Config, s: Store.Storage, ids: seq<Id>, order: seq<nat>, n: nat)
    requires Store.InRange(order, |ids|) && n <= |order| && HashesAreIds(c) && AllIds(ids)
    ensures AllIds(Store.CommitIds(c, s, ids, order, n))
  {
    if n > 0 {
      CommittedIdsAreIds(c, s, ids, order, n - 1);
    }
  }

  lemma {:induction false} StaysExited(c: Config, s: Store.Storage, order: seq<nat>, m: nat, n: nat)
    requires m <= n <= |order| && Store.CommitAll(c, s, order, m).None?
    ensures Store.CommitAll(c, s, order, n).None?
  {
    if m < n {
      StaysExited(c, s, order, m, n - 1);
    }
  }

  /** What the region is after some store tasks. */
  ghost predicate StoredSoFar(c: Config, start: Pager, order: seq<nat>, p: Pager) {
    Shape(start) && Store.InRange(order, |start.ids|) && p == Flush.StoreTasks(c, start, order, |order|)
  }

  lemma StoredNext(c: Config, start: Pager, order: seq<nat>, p: Pager, block: nat)
    requires StoredSoFar(c, start, order, p) && block < |start.ids|
    ensures block < |p.ids| && block < |p.mem| && block < |p.prot|
    ensures StoredSoFar(c, start, order + [block], Flush.StoreTask(c, p, block))
  {
    Flush.OneMoreTask(c, start, order, block);
  }

  /** What the storage and the ids are after some commit tasks. */
  ghost predicate CommittedSoFar(c: Config, start: Pager, commits: seq<nat>, store: Store.Storage, ids: seq<Id>) {
    && Store.InRange(commits, |start.ids|)
    && Store.CommitAll(c, start.store, commits, |commits|) == Some(store)
    && ids == Store.CommitIds(c, start.store, start.ids, commits, |commits|)
  }

  lemma CommittedNext(c: Config, start: Pager, commits: seq<nat>, store: Store.Storage, ids: seq<Id>, block: nat,
                      store': Store.Storage, ids': seq<Id>)
    requires CommittedSoFar(c, start, commits, store, ids) && block < |ids|
    requires Store.CommitNext(c, Some(store), block) == Some(store')
    requires ids' == ids[block := Store.StashedId(c, store, block)]
    ensures CommittedSoFar(c, start, commits + [block], store', ids')
  {
    Store.OneMoreCommit(c, start.store, start.ids, commits, block);
  }

  lemma ExitIsFinal(c: Config, start: Pager, commits: seq<nat>, store: Store.Storage, ids: seq<Id>, block: nat,
                    rest: seq<nat>)
    requires CommittedSoFar(c, start, commits, store, ids) && block < |ids|
    requires Store.CommitNext(c, Some(store), block).None?
    ensures var order := commits + [block] + rest; Store.CommitAll(c, start.store, order, |order|).None?
  {
    var order := commits + [block];
    Store.OneMoreCommit(c, start.store, start.ids, commits, block);
    Store.SamePrefixCommits(c, start.store, order, rest, |order|);
    StaysExited(c, start.store, order + rest, |order|, |order + rest|);
  }

  // ---------- Sessions ----------

  /** A process opening regions under one base path; `disk` is what its storage directories hold. */
  class Privateer {
    const config: Config
    const dirs: VersionDirectories

    constructor (config: Config, dirs: VersionDirectories)
      ensures this.config == config && this.dirs == dirs
    {
      this.config, this.dirs := config, dirs;
    }

    ghost predicate Opened(region: Region, w: World, k: nat)
      reads region, region.storage, region.blockIds, region.prot, region.mem, dirs
    {
      && region.Valid() && region.config == config && region.dirs == dirs && AllIds(region.blockIds[..])
      && k in w.sessions && dirs.versions == w.versions
      && w.sessions[k] == Session(region.versionPath, region.capacity, region.State())
    }

    /** create(): null exactly when the version exists and may not be overwritten. */
    method Create(disk: Store.Disk, path: string, size: nat, maxMemBlocks: nat, allowOverwrite: bool)
      returns (region: Region?)
      modifies dirs
      ensures region == null <==> path in old(dirs.versions) && !allowOverwrite
      ensures region == null ==> dirs.versions == old(dirs.versions)
      ensures region != null ==> region.versionPath == path && !region.readOnly && region.maxMemBlocks == maxMemBlocks
      ensures var w := World(old(dirs.versions), map[], disk);
              var w' := CreateStep(config, w, 0, path, size, maxMemBlocks, allowOverwrite);
              if region == null then w' == w && dirs.versions == w.versions else Opened(region, w', 0)
    {
      if path in dirs.versions && !allowOverwrite {
        return null;
      }
      var capacity := RoundUp(config, size);
      dirs.versions := dirs.versions[path := Version(Some(""), Some(capacity))];
      var ids := new Id[NumBlocks(config, capacity)](_ => EmptyBlockHash());
      region := new Region(config, disk, dirs, path, capacity, ids, maxMemBlocks, false);
      assert ids[..] == seq(NumBlocks(config, capacity), _ => EmptyBlockHash());
    }

    /** open() and open_read_only(): null when the version cannot be opened. */
    method Open(disk: Store.Disk, path: string, maxMemBlocks: nat, readOnly: bool) returns (region: Region?)
      requires path in dirs.versions && IsComplete(dirs.versions[path]) ==>
                 |dirs.versions[path].metadata.value| <= HASH_SIZE * NumBlocks(config, CapacityOf(dirs.versions[path]))
      ensures region != null <==> path in dirs.versions && IsComplete(dirs.versions[path])
      ensures region != null ==>
                region.versionPath == path && region.readOnly == readOnly && region.maxMemBlocks == maxMemBlocks
      ensures var w := World(dirs.versions, map[], disk);
              var w' := OpenStep(config, w, 0, path, maxMemBlocks, readOnly);
              if region == null then w' == w else Opened(region, w', 0)
    {
      if path !in dirs.versions || !IsComplete(dirs.versions[path]) {
        return null;
      }
      var version := dirs.versions[path];
      var ids := ParseIds(version.metadata.value, NumBlocks(config, CapacityOf(version)));
      region := new Region(config, disk, dirs, path, CapacityOf(version), ids, maxMemBlocks, readOnly);
    }

    /** open_immutable(): copy the source's files to a new version and open the copy. Null: the process ends. */
    method OpenImmutable(disk: Store.Disk, source: string, target: string, maxMemBlocks: nat) returns (region: Region?)
      requires source in dirs.versions && IsComplete(dirs.versions[source]) ==>
                 |dirs.versions[source].metadata.value|
                 <= HASH_SIZE * NumBlocks(config, CapacityOf(dirs.versions[source]))
      modifies dirs
      ensures region != null
              <==> source in old(dirs.versions) && IsComplete(old(dirs.versions)[source])
                   && target !in old(dirs.versions)
      ensures region != null ==> region.versionPath == target && !region.readOnly && region.maxMemBlocks == maxMemBlocks
      ensures var w := World(old(dirs.versions), map[], disk);
              var w' := OpenImmutableStep(config, w, 0, source, target, maxMemBlocks);
              if region == null then w' == w.(versions := dirs.versions) else Opened(region, w', 0)
    {
      if source !in dirs.versions || target in dirs.versions {
        return null;
      }
      if !IsComplete(dirs.versions[source]) {
        dirs.versions := dirs.versions[target := Version(dirs.versions[source].metadata, None)];
        return null;
      }
      dirs.versions := dirs.versions[target := dirs.versions[source]];
      region := Open(disk, target, maxMemBlocks, false);
    }
  }
}
