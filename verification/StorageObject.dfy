/** The block storage as the object it is: fields for its directories and its two maps, updated in place. */
module StorageObject {
  import opened Blocks
  import Store

  class BlockStorage {
    const config: Config

    /** Final files of both tiers, temporary files, and stash files. */
    var files: map<FileName, Bytes>
    var temps: map<nat, Bytes>
    var nextTemp: nat
    var stash: map<nat, Bytes>
    var nextUuid: nat

    var stashBlockIds: map<nat, nat>
    var stashCommittedBlockIds: map<nat, string>

    ghost predicate Valid()
      reads this
    {
      forall t | t in temps :: t < nextTemp
    }

    ghost function State(): Store.Storage
      reads this
    {
      Store.Storage(Store.Disk(files, stash, nextUuid), stashBlockIds, stashCommittedBlockIds)
    }

    constructor (config: Config, disk: Store.Disk)
      ensures this.config == config && Valid() && temps == map[]
      ensures State() == Store.Storage(disk, map[], map[])
    {
      this.config := config;
      files, temps, nextTemp := disk.files, map[], 0;
      stash, nextUuid := disk.stash, disk.nextUuid;
      stashBlockIds, stashCommittedBlockIds := map[], map[];
    }

    /** The store_block overload that works on one tier; an empty `preComputedHash` is computed. */
    method StoreInTier(buffer: Bytes, tier: Tier, preComputedHash: Id) returns (blockHash: Id)
      requires Valid()
      modifies this`files, this`temps, this`nextTemp
      ensures Valid() && temps == old(temps)
      ensures blockHash == if preComputedHash == "" then config.hash(buffer) else preComputedHash
      ensures files == Store.Publish(old(files), File(tier, blockHash), buffer)
    {
      blockHash := preComputedHash;
      if blockHash == "" {
        blockHash := config.hash(buffer);
      }
      var temp := nextTemp;
      nextTemp := nextTemp + 1;
      temps := temps[temp := Zeros(config.blockSize)];
      var final := File(tier, blockHash);
      if final !in files {
        temps := temps[temp := buffer];
        files := files[final := temps[temp]];
        temps := temps - {temp};
      } else {
        temps := temps - {temp};
      }
      assert temps == old(temps);
    }

    method StoreBlock(buffer: Bytes, blockIndex: nat) returns (blockHash: Id)
      requires Valid() && config.hash(buffer) != ""
      modifies this
      ensures Valid() && temps == old(temps)
      ensures blockHash == config.hash(buffer)
      ensures State() == Store.StoreBlock(config, old(State()), blockIndex, buffer)
    {
      var outerHash: Id := "";
      var onStash := config.multi;
      if onStash {
        var innerHash := StoreInTier(buffer, Upper, "");
        if innerHash == "" {
          return innerHash;
        }
        onStash := false;
      }
      blockHash := StoreInTier(buffer, if onStash then Upper else Base, outerHash);
      if blockHash != "" && blockIndex !in stashCommittedBlockIds {
        stashCommittedBlockIds := stashCommittedBlockIds[blockIndex := outerHash];
      }
    }

    method StashBlock(blockStart: Bytes, blockIndex: nat)
      requires Valid()
      modifies this
      ensures Valid() && temps == old(temps)
      ensures State() == Store.StashBlock(old(State()), blockIndex, blockStart)
    {
      var uuid;
      if blockIndex in stashBlockIds {
        uuid := stashBlockIds[blockIndex];
      } else {
        uuid := nextUuid;
        nextUuid := nextUuid + 1;
        stashBlockIds := stashBlockIds[blockIndex := uuid];
      }
      stash := stash[uuid := blockStart];
    }

    method UnstashBlock(blockIndex: nat) returns (ok: bool)
      requires Valid()
      modifies this
      ensures Valid() && temps == old(temps)
      ensures ok <==> blockIndex in old(stashBlockIds)
      ensures ok ==> Store.UnstashBlock(old(State()), blockIndex) == Some(State())
      ensures !ok ==> State() == old(State())
    {
      if blockIndex !in stashBlockIds {
        return false;
      }
      stash := stash - {stashBlockIds[blockIndex]};
      stashBlockIds := stashBlockIds - {blockIndex};
      ok := true;
    }

    /** `exited`: there is no stash file to commit. */
    method CommitStashBlock(blockIndex: nat) returns (exited: bool, blockHash: Id)
      requires Valid()
      requires blockIndex in stashBlockIds && stashBlockIds[blockIndex] in stash ==>
                 config.hash(stash[stashBlockIds[blockIndex]]) != ""
      modifies this
      ensures Valid() && temps == old(temps)
      ensures exited <==> Store.CommitStashBlock(config, old(State()), blockIndex).None?
      ensures !exited ==> Store.CommitStashBlock(config, old(State()), blockIndex) == Some((State(), blockHash))
    {
      if blockIndex !in stashBlockIds || stashBlockIds[blockIndex] !in stash {
        return true, "";
      }
      exited := false;
      var uuid := stashBlockIds[blockIndex];
      var tempBuffer := stash[uuid];
      blockHash := config.hash(tempBuffer);
      var final := File(if config.multi then Upper else Base, blockHash);
      if final !in files {
        files := files[final := stash[uuid]];
        stash := stash - {uuid};
        blockHash := StoreInTier(tempBuffer, Base, blockHash);
        stashBlockIds := stashBlockIds - {blockIndex};
      } else {
        stash := stash - {uuid};
        stashBlockIds := stashBlockIds - {blockIndex};
      }
    }

    /** `exited`: the base file to copy up does not exist. */
    method GetBlockFullPath(blockIndex: nat, blockHash: Id) returns (exited: bool, tier: Tier)
      requires Valid()
      modifies this
      ensures Valid() && temps == old(temps)
      ensures exited <==> Store.PrepareFullPath(config, old(State()), blockIndex, blockHash).None?
      ensures !exited ==> Store.PrepareFullPath(config, old(State()), blockIndex, blockHash) == Some(State())
      ensures !exited ==> tier == Store.Front(config)
    {
      if config.multi {
        if blockIndex !in stashCommittedBlockIds {
          var copied := CopyToStash(blockHash);
          if !copied {
            return true, Upper;
          }
          stashCommittedBlockIds := stashCommittedBlockIds[blockIndex := blockHash];
        }
        return false, Upper;
      } else {
        return false, Base;
      }
    }

    method CopyToStash(blockHash: Id) returns (ok: bool)
      modifies this`files
      ensures ok <==> File(Upper, blockHash) in old(files) || File(Base, blockHash) in old(files)
      ensures files == if ok && File(Upper, blockHash) !in old(files)
                       then old(files)[File(Upper, blockHash) := old(files)[File(Base, blockHash)]] else old(files)
    {
      if File(Upper, blockHash) !in files {
        if File(Base, blockHash) !in files {
          return false;
        }
        files := files[File(Upper, blockHash) := files[File(Base, blockHash)]];
      }
      ok := true;
    }
  }
}
