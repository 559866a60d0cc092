/** One tier or two: which directory layouts use a stash tier, and what holds of it over every run. */
module Tiers {
  import opened Blocks
  import opened Store
  import opened Pager
  import opened World
  import opened WorldLemmas

  /** The path up to its last slash, or all of it when it has none. */
  function Parent(path: string): string {
    ParentWithin(path, |path|)
  }

  function ParentWithin(path: string, n: nat): string
    requires n <= |path|
  {
    if n == 0 then path else if path[n - 1] == '/' then path[..n - 1] else ParentWithin(path, n - 1)
  }

  /** is_multi_tiered: the two directories lie in different parents. */
  predicate IsMultiTiered(baseDirectory: string, stashDirectory: string) {
    Parent(baseDirectory) != Parent(stashDirectory)
  }

  lemma {:induction false} ParentOfChild(dir: string, name: string, n: nat)
    requires '/' !in name && n <= |name|
    ensures ParentWithin(dir + "/" + name, |dir| + 1 + n) == dir
  {
    var path := dir + "/" + name;
    if n == 0 {
      assert path[|dir|] == '/' && path[..|dir|] == dir;
    } else {
      assert path[|dir| + n] == name[n - 1] && name[n - 1] in name;
      ParentOfChild(dir, name, n - 1);
    }
  }

  lemma {:induction false} ParentOfBare(path: string, n: nat)
    requires '/' !in path && n <= |path|
    ensures ParentWithin(path, n) == path
  {
    if n > 0 {
      assert path[n - 1] in path;
      ParentOfBare(path, n - 1);
    }
  }

  /** A datastore with a stash path of its own has two tiers exactly when that path is not the base path. */
  lemma TwoTiersIff(basePath: string, stashBasePath: string)
    ensures IsMultiTiered(basePath + "/" + "blocks", stashBasePath + "/" + "stash") <==> basePath != stashBasePath
  {
    ParentOfChild(basePath, "blocks", 6);
    ParentOfChild(stashBasePath, "stash", 5);
  }

  /**
    Over every run of every process: each file holds a whole block that hashes to
    its name, each file of the stash tier is in the base tier with equal contents,
    and wherever a process would read a stored block the file is there and right.
   */
  lemma TiersStayCoherent(c: Config, u: iset<Bytes>, w: World, events: seq<Event>)
    requires Sound(c, u) && WorldOk(c, u, w) && ValidRun(c, u, w, events)
    ensures var w' := Run(c, w, events);
            && (forall f | f in w'.disk.files :: |w'.disk.files[f]| == c.blockSize && c.hash(w'.disk.files[f]) == f.id)
            && (forall id | File(Upper, id) in w'.disk.files ::
                  File(Base, id) in w'.disk.files && w'.disk.files[File(Base, id)] == w'.disk.files[File(Upper, id)])
            && (forall k, i | k in w'.sessions && 0 <= i < |View(w', k).ids|
                              && View(w', k).ids[i] != EmptyBlockHash() ::
                  ReadsBlock(c, View(w', k), i))
  {
    RunKeeps(c, u, w, events);
    var w' := Run(c, w, events);
    forall f | f in w'.disk.files
      ensures |w'.disk.files[f]| == c.blockSize
    {
      assert w'.disk.files[f] in u;
    }
    NameFixesContents(c, u, w'.disk.files, w'.disk.files);
    forall k, i | k in w'.sessions && 0 <= i < |View(w', k).ids| && View(w', k).ids[i] != EmptyBlockHash()
      ensures ReadsBlock(c, View(w', k), i)
    {
      assert SessionOk(c, u, w'.versions, w'.disk, w'.sessions[k]);
      assert IdOk(c, View(w', k).store, i, View(w', k).ids[i]);
      FullPathNamesTheBlock(c, u, View(w', k).store, i, View(w', k).ids[i]);
    }
  }

  ghost predicate ReadsBlock(c: Config, p: Pager, i: nat)
    requires i < |p.ids|
  {
    var r := ReadBlock(c, p.store, i, p.ids[i]);
    r.Some? && r.value.1 == Content(c, p.store.disk.files, p.ids[i])
  }
}
