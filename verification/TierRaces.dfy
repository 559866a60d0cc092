/**
  Two tiers, file operation by file operation. Processes that share the stash
  directory store blocks, commit stash files and copy blocks up for reading; each
  existence check, rename, and start and end of a copy is a step of its own, and a
  process that dies takes no further step. The temporary files behind a rename are
  in Publication.
 */
module TierRaces {
  import opened Blocks
  import Store

  /** store_block, commit_stash_block, and a block's first use through get_block_full_path. */
  datatype Job = StoreJob(block: Bytes) | CommitJob(block: Bytes) | UseJob(id: Id)

  /** `Torn`: what was read is a copy still being made. `Exited`: the copy failed. */
  datatype Phase =
    | CheckUpper | PutUpper | CheckBase | PutBase
    | Copying | Reading
    | Done | Got(block: Bytes) | Torn | Exited

  /** A whole block, or what its maker has copied so far. */
  datatype Held = Whole(block: Bytes) | Partial(maker: nat)

  datatype State = State(files: map<FileName, Held>, actors: seq<Phase>)

  function IdOf(c: Config, job: Job): Id {
    if job.UseJob? then job.id else c.hash(job.block)
  }

  function Initial(files: map<FileName, Held>, count: nat): State {
    State(files, seq(count, _ => CheckUpper))
  }

  /** A rename puts a whole file in place, whatever is there; a copy refuses a name that is taken. */
  function NextOfWriter(c: Config, s: State, w: nat, job: Job): State
    requires w < |s.actors| && !job.UseJob?
  {
    var upper, base := File(Upper, c.hash(job.block)), File(Base, c.hash(job.block));
    match s.actors[w]
    case CheckUpper =>
      s.(actors := s.actors[w := if upper !in s.files then PutUpper else if job.StoreJob? then CheckBase else Done])
    case PutUpper => State(s.files[upper := Whole(job.block)], s.actors[w := CheckBase])
    case CheckBase => s.(actors := s.actors[w := if base in s.files then Done else PutBase])
    case PutBase => State(s.files[base := Whole(job.block)], s.actors[w := Done])
    case _ => s
  }

  function NextOfUser(s: State, w: nat, id: Id): State
    requires w < |s.actors|
  {
    var upper, base := File(Upper, id), File(Base, id);
    match s.actors[w]
    case CheckUpper => s.(actors := s.actors[w := if upper in s.files then Reading else PutUpper])
    case PutUpper =>
      if upper in s.files || base !in s.files then s.(actors := s.actors[w := Exited])
      else State(s.files[upper := Partial(w)], s.actors[w := Copying])
    case Copying =>
      State(if upper in s.files && base in s.files && s.files[upper] == Partial(w) then s.files[upper := s.files[base]]
            else s.files,
            s.actors[w := Reading])
    case Reading =>
      s.(actors := s.actors[w := if upper !in s.files then Exited
                                 else if s.files[upper].Whole? then Got(s.files[upper].block) else Torn])
    case _ => s
  }

  function Step(c: Config, jobs: seq<Job>, s: State, w: nat): State
    requires |s.actors| == |jobs|
  {
    if w >= |jobs| then s
    else if jobs[w].UseJob? then NextOfUser(s, w, jobs[w].id)
    else NextOfWriter(c, s, w, jobs[w])
  }

  function Run(c: Config, jobs: seq<Job>, s: State, schedule: seq<nat>): (r: State)
    requires |s.actors| == |jobs|
    ensures |r.actors| == |jobs|
    decreases |schedule|
  {
    if schedule == [] then s else Run(c, jobs, Step(c, jobs, s, schedule[0]), schedule[1..])
  }

  // ---------- Invariant ----------

  ghost predicate JobsOk(u: iset<Bytes>, jobs: seq<Job>) {
    forall w | 0 <= w < |jobs| && !jobs[w].UseJob? :: jobs[w].block in u
  }

  ghost predicate IsWhole(c: Config, u: iset<Bytes>, f: FileName, held: Held) {
    held.Whole? && held.block in u && c.hash(held.block) == f.id
  }

  /** Actor w is in the middle of a copy, and the file under its name is still that copy. */
  ghost predicate CopyInPlace(jobs: seq<Job>, s: State, w: nat)
    requires |s.actors| == |jobs|
  {
    && w < |jobs| && jobs[w].UseJob? && s.actors[w] == Copying
    && File(Upper, jobs[w].id) in s.files && s.files[File(Upper, jobs[w].id)] == Partial(w)
  }

  /** A file is whole, or a copy in the stash tier that its maker is still at. */
  ghost predicate FileOk(c: Config, u: iset<Bytes>, jobs: seq<Job>, s: State, f: FileName)
    requires |s.actors| == |jobs| && f in s.files
  {
    var held := s.files[f];
    IsWhole(c, u, f, held) ||
    (held.Partial? && f.tier.Upper? && CopyInPlace(jobs, s, held.maker) && jobs[held.maker].id == f.id)
  }

  /** Actor w has its block in the stash tier and has yet to see to the base tier. */
  ghost predicate Behind(c: Config, jobs: seq<Job>, s: State, w: nat, id: Id)
    requires |s.actors| == |jobs|
  {
    && w < |jobs| && !jobs[w].UseJob? && c.hash(jobs[w].block) == id
    && (s.actors[w] == CheckBase || s.actors[w] == PutBase)
  }

  ghost predicate UpperOk(c: Config, jobs: seq<Job>, s: State, id: Id)
    requires |s.actors| == |jobs|
  {
    File(Upper, id) in s.files ==> File(Base, id) in s.files || exists w: nat :: Behind(c, jobs, s, w, id)
  }

  /** What an actor has seen to by the phase it is in. */
  ghost predicate ActorOk(c: Config, u: iset<Bytes>, files: map<FileName, Held>, job: Job, phase: Phase) {
    var upper, base := File(Upper, IdOf(c, job)), File(Base, IdOf(c, job));
    match phase
    case CheckUpper => true
    case PutUpper => true
    case CheckBase => !job.UseJob? && upper in files
    case PutBase => !job.UseJob? && upper in files
    case Done => !job.UseJob? && (job.StoreJob? ==> base in files) && (job.CommitJob? ==> upper in files)
    case Copying => job.UseJob? && upper in files && base in files
    case Reading => job.UseJob? && upper in files
    case Got(block) => job.UseJob? && block in u && c.hash(block) == job.id
    case Torn => job.UseJob?
    case Exited => job.UseJob?
  }

  ghost predicate Inv(c: Config, u: iset<Bytes>, jobs: seq<Job>, s: State) {
    && |s.actors| == |jobs|
    && (forall f | f in s.files :: FileOk(c, u, jobs, s, f))
    && (forall id :: UpperOk(c, jobs, s, id))
    && (forall w | 0 <= w < |jobs| :: ActorOk(c, u, s.files, jobs[w], s.actors[w]))
  }

  lemma FilesStay(c: Config, jobs: seq<Job>, s: State, w: nat)
    requires |s.actors| == |jobs|
    ensures s.files.Keys <= Step(c, jobs, s, w).files.Keys
  {
  }

  lemma StepKeepsFile(c: Config, u: iset<Bytes>, jobs: seq<Job>, s: State, w: nat, f: FileName)
    requires Inv(c, u, jobs, s) && JobsOk(u, jobs) && f in Step(c, jobs, s, w).files
    ensures FileOk(c, u, jobs, Step(c, jobs, s, w), f)
  {
    if w < |jobs| {
      assert ActorOk(c, u, s.files, jobs[w], s.actors[w]);
      if f in s.files {
        assert FileOk(c, u, jobs, s, f);
      }
      if File(Base, IdOf(c, jobs[w])) in s.files {
        assert FileOk(c, u, jobs, s, File(Base, IdOf(c, jobs[w])));
      }
    }
  }

  lemma StepKeepsBehind(c: Config, jobs: seq<Job>, s: State, w: nat, v: nat, id: Id)
    requires |s.actors| == |jobs| && Behind(c, jobs, s, v, id)
    ensures Behind(c, jobs, Step(c, jobs, s, w), v, id) || File(Base, id) in Step(c, jobs, s, w).files
  {
  }

  lemma StepKeepsUpper(c: Config, u: iset<Bytes>, jobs: seq<Job>, s: State, w: nat, id: Id)
    requires Inv(c, u, jobs, s)
    ensures UpperOk(c, jobs, Step(c, jobs, s, w), id)
  {
    var s' := Step(c, jobs, s, w);
    FilesStay(c, jobs, s, w);
    if File(Upper, id) in s'.files && File(Base, id) !in s'.files {
      if File(Upper, id) in s.files {
        assert UpperOk(c, jobs, s, id);
        var v :| Behind(c, jobs, s, v, id);
        StepKeepsBehind(c, jobs, s, w, v, id);
      } else {
        assert ActorOk(c, u, s.files, jobs[w], s.actors[w]);
        assert Behind(c, jobs, s', w, id);
      }
    }
  }

  lemma StepKeepsActor(c: Config, u: iset<Bytes>, jobs: seq<Job>, s: State, w: nat, v: nat)
    requires Inv(c, u, jobs, s) && v < |jobs|
    ensures ActorOk(c, u, Step(c, jobs, s, w).files, jobs[v], Step(c, jobs, s, w).actors[v])
  {
    FilesStay(c, jobs, s, w);
    assert ActorOk(c, u, s.files, jobs[v], s.actors[v]);
    if v == w && jobs[w].UseJob? && File(Upper, jobs[w].id) in s.files {
      assert FileOk(c, u, jobs, s, File(Upper, jobs[w].id));
    }
  }

  lemma StepInv(c: Config, u: iset<Bytes>, jobs: seq<Job>, s: State, w: nat)
    requires Inv(c, u, jobs, s) && JobsOk(u, jobs)
    ensures Inv(c, u, jobs, Step(c, jobs, s, w))
  {
    var s' := Step(c, jobs, s, w);
    forall f | f in s'.files
      ensures FileOk(c, u, jobs, s', f)
    {
      StepKeepsFile(c, u, jobs, s, w, f);
    }
    forall id
      ensures UpperOk(c, jobs, s', id)
    {
      StepKeepsUpper(c, u, jobs, s, w, id);
    }
    forall v | 0 <= v < |jobs|
      ensures ActorOk(c, u, s'.files, jobs[v], s'.actors[v])
    {
      StepKeepsActor(c, u, jobs, s, w, v);
    }
  }

  lemma {:induction false} RunInv(c: Config, u: iset<Bytes>, jobs: seq<Job>, s: State, schedule: seq<nat>)
    requires Inv(c, u, jobs, s) && JobsOk(u, jobs)
    ensures Inv(c, u, jobs, Run(c, jobs, s, schedule))
    decreases |schedule|
  {
    if schedule != [] {
      StepInv(c, u, jobs, s, schedule[0]);
      RunInv(c, u, jobs, Step(c, jobs, s, schedule[0]), schedule[1..]);
    }
  }

  // ---------- Who put a file last ----------

  /** Actor w puts a file under the name in the stash tier: a rename, or the start of a copy. */
  ghost predicate Puts(c: Config, jobs: seq<Job>, s: State, w: nat, id: Id)
    requires |s.actors| == |jobs|
  {
    && w < |jobs| && IdOf(c, jobs[w]) == id && s.actors[w] == PutUpper
    && (jobs[w].UseJob? ==> Step(c, jobs, s, w).actors[w] == Copying)
  }

  /** The actor that put the name last, over a run. */
  ghost function LastPut(c: Config, jobs: seq<Job>, s: State, schedule: seq<nat>, id: Id,
                         last: Option<nat>): Option<nat>
    requires |s.actors| == |jobs|
    decreases |schedule|
  {
    if schedule == [] then last
    else LastPut(c, jobs, Step(c, jobs, s, schedule[0]), schedule[1..], id,
                 if Puts(c, jobs, s, schedule[0], id) then Some(schedule[0]) else last)
  }

  /** It was a copy, and its maker has not finished it. */
  ghost predicate Unfinished(jobs: seq<Job>, s: State, last: Option<nat>, id: Id)
    requires |s.actors| == |jobs|
  {
    last.Some? && last.value < |jobs| && jobs[last.value] == UseJob(id) && s.actors[last.value] == Copying
  }

  ghost predicate TornOk(jobs: seq<Job>, s: State, last: Option<nat>, id: Id)
    requires |s.actors| == |jobs|
  {
    var f := File(Upper, id);
    && (Unfinished(jobs, s, last, id) ==> f in s.files && s.files[f] == Partial(last.value))
    && (f in s.files && s.files[f].Partial? ==> Unfinished(jobs, s, last, id))
  }

  lemma StepKeepsTorn(c: Config, u: iset<Bytes>, jobs: seq<Job>, s: State, w: nat, last: Option<nat>, id: Id)
    requires Inv(c, u, jobs, s) && TornOk(jobs, s, last, id)
    ensures TornOk(jobs, Step(c, jobs, s, w), if Puts(c, jobs, s, w, id) then Some(w) else last, id)
  {
    if w < |jobs| {
      assert ActorOk(c, u, s.files, jobs[w], s.actors[w]);
      if File(Base, IdOf(c, jobs[w])) in s.files {
        assert FileOk(c, u, jobs, s, File(Base, IdOf(c, jobs[w])));
      }
    }
  }

  lemma {:induction false} RunTorn(c: Config, u: iset<Bytes>, jobs: seq<Job>, s: State, schedule: seq<nat>,
                                   last: Option<nat>, id: Id)
    requires Inv(c, u, jobs, s) && JobsOk(u, jobs) && TornOk(jobs, s, last, id)
    ensures TornOk(jobs, Run(c, jobs, s, schedule), LastPut(c, jobs, s, schedule, id, last), id)
    decreases |schedule|
  {
    if schedule != [] {
      var w := schedule[0];
      StepKeepsTorn(c, u, jobs, s, w, last, id);
      StepInv(c, u, jobs, s, w);
      RunTorn(c, u, jobs, Step(c, jobs, s, w), schedule[1..], if Puts(c, jobs, s, w, id) then Some(w) else last, id);
    }
  }

  /** The last to put the name in the stash tier is a process that has begun to copy the block and not finished. */
  ghost predicate LeftUnfinished(c: Config, files: map<FileName, Bytes>, jobs: seq<Job>, schedule: seq<nat>, id: Id) {
    var s := Initial(Lift(files), |jobs|);
    Unfinished(jobs, Run(c, jobs, s, schedule), LastPut(c, jobs, s, schedule, id, None), id)
  }

  lemma RunFacts(c: Config, u: iset<Bytes>, files: map<FileName, Bytes>, jobs: seq<Job>, schedule: seq<nat>)
    requires Store.FilesOk(c, u, files) && JobsOk(u, jobs)
    ensures var s := Initial(Lift(files), |jobs|);
            && Inv(c, u, jobs, Run(c, jobs, s, schedule))
            && forall id :: TornOk(jobs, Run(c, jobs, s, schedule), LastPut(c, jobs, s, schedule, id, None), id)
  {
    var s := Initial(Lift(files), |jobs|);
    StartInv(c, u, files, jobs);
    RunInv(c, u, jobs, s, schedule);
    forall id
      ensures TornOk(jobs, Run(c, jobs, s, schedule), LastPut(c, jobs, s, schedule, id, None), id)
    {
      RunTorn(c, u, jobs, s, schedule, None, id);
    }
  }

  // ---------- Main results ----------

  ghost predicate AllWhole(c: Config, u: iset<Bytes>, s: State) {
    forall f | f in s.files :: IsWhole(c, u, f, s.files[f])
  }

  /** Files at rest: every one whole, and the stash tier within the base tier. */
  function Lift(files: map<FileName, Bytes>): map<FileName, Held> {
    map f | f in files :: Whole(files[f])
  }

  lemma StartInv(c: Config, u: iset<Bytes>, files: map<FileName, Bytes>, jobs: seq<Job>)
    requires Store.FilesOk(c, u, files)
    ensures Inv(c, u, jobs, Initial(Lift(files), |jobs|))
  {
  }

  /**
    Every file under a hash name is whole exactly when no name in the stash tier was
    put there last by a copy that its maker, alive or dead, has not finished.
   */
  lemma FilesWholeIff(c: Config, u: iset<Bytes>, files: map<FileName, Bytes>, jobs: seq<Job>, schedule: seq<nat>)
    requires Store.FilesOk(c, u, files) && JobsOk(u, jobs)
    ensures AllWhole(c, u, Run(c, jobs, Initial(Lift(files), |jobs|), schedule))
            <==> forall id :: !LeftUnfinished(c, files, jobs, schedule, id)
  {
    RunFacts(c, u, files, jobs, schedule);
    var s := Run(c, jobs, Initial(Lift(files), |jobs|), schedule);
    if forall id :: !LeftUnfinished(c, files, jobs, schedule, id) {
      forall f | f in s.files
        ensures IsWhole(c, u, f, s.files[f])
      {
        assert FileOk(c, u, jobs, s, f) && !LeftUnfinished(c, files, jobs, schedule, f.id);
      }
    } else {
      var id :| LeftUnfinished(c, files, jobs, schedule, id);
      var last := LastPut(c, jobs, Initial(Lift(files), |jobs|), schedule, id, None);
      assert TornOk(jobs, s, last, id) && Unfinished(jobs, s, last, id);
      assert File(Upper, id) in s.files && !IsWhole(c, u, File(Upper, id), s.files[File(Upper, id)]);
      assert !AllWhole(c, u, s);
    }
  }

  /** No store and no commit of this block. */
  ghost predicate NoWriter(c: Config, jobs: seq<Job>, id: Id) {
    forall v | 0 <= v < |jobs| && !jobs[v].UseJob? :: c.hash(jobs[v].block) != id
  }

  ghost predicate CopiesInPlace(jobs: seq<Job>, s: State, id: Id)
    requires |s.actors| == |jobs|
  {
    forall v: nat | v < |jobs| && jobs[v] == UseJob(id) && s.actors[v] == Copying :: CopyInPlace(jobs, s, v)
  }

  lemma {:induction false} RunKeepsCopies(c: Config, jobs: seq<Job>, s: State, schedule: seq<nat>, id: Id)
    requires |s.actors| == |jobs| && NoWriter(c, jobs, id) && CopiesInPlace(jobs, s, id)
    ensures CopiesInPlace(jobs, Run(c, jobs, s, schedule), id)
    decreases |schedule|
  {
    if schedule != [] {
      RunKeepsCopies(c, jobs, Step(c, jobs, s, schedule[0]), schedule[1..], id);
    }
  }

  /**
    Of a block that is only read, the stash tier's file is whole exactly when no process
    is in the middle of copying it.
   */
  lemma ReadOnlyBlockWholeIff(c: Config, u: iset<Bytes>, files: map<FileName, Bytes>, jobs: seq<Job>,
                              schedule: seq<nat>, id: Id)
    requires Store.FilesOk(c, u, files) && JobsOk(u, jobs) && NoWriter(c, jobs, id)
    ensures var s := Run(c, jobs, Initial(Lift(files), |jobs|), schedule);
            (File(Upper, id) in s.files ==> IsWhole(c, u, File(Upper, id), s.files[File(Upper, id)]))
            <==> forall v: nat | v < |jobs| :: !(jobs[v] == UseJob(id) && s.actors[v] == Copying)
  {
    RunFacts(c, u, files, jobs, schedule);
    RunKeepsCopies(c, jobs, Initial(Lift(files), |jobs|), schedule, id);
    var s := Run(c, jobs, Initial(Lift(files), |jobs|), schedule);
    if File(Upper, id) in s.files {
      assert FileOk(c, u, jobs, s, File(Upper, id));
    }
  }

  /**
    The stash tier is within the base tier exactly when whoever is between the two,
    alive or dead, has a block that somebody brought to the base tier.
   */
  lemma TiersCoherentIff(c: Config, u: iset<Bytes>, files: map<FileName, Bytes>, jobs: seq<Job>, schedule: seq<nat>)
    requires Store.FilesOk(c, u, files) && JobsOk(u, jobs)
    ensures var s := Run(c, jobs, Initial(Lift(files), |jobs|), schedule);
            (forall id | File(Upper, id) in s.files :: File(Base, id) in s.files)
            <==> forall w: nat, id | Behind(c, jobs, s, w, id) :: File(Base, id) in s.files
  {
    StartInv(c, u, files, jobs);
    RunInv(c, u, jobs, Initial(Lift(files), |jobs|), schedule);
    var s := Run(c, jobs, Initial(Lift(files), |jobs|), schedule);
    forall w: nat, id | Behind(c, jobs, s, w, id)
      ensures File(Upper, id) in s.files
    {
      assert ActorOk(c, u, s.files, jobs[w], s.actors[w]);
    }
    if forall w: nat, id | Behind(c, jobs, s, w, id) :: File(Base, id) in s.files {
      forall id | File(Upper, id) in s.files
        ensures File(Base, id) in s.files
      {
        assert UpperOk(c, jobs, s, id);
      }
    }
  }

  ghost predicate AllFinished(s: State) {
    forall w | 0 <= w < |s.actors| ::
      s.actors[w].Done? || s.actors[w].Got? || s.actors[w].Torn? || s.actors[w].Exited?
  }

  /** When no process died on the way, files are whole and the tiers coherent once all are through. */
  lemma AllFinishedIsCoherent(c: Config, u: iset<Bytes>, files: map<FileName, Bytes>, jobs: seq<Job>,
                              schedule: seq<nat>)
    requires Store.FilesOk(c, u, files) && JobsOk(u, jobs)
    requires AllFinished(Run(c, jobs, Initial(Lift(files), |jobs|), schedule))
    ensures var s := Run(c, jobs, Initial(Lift(files), |jobs|), schedule);
            && AllWhole(c, u, s)
            && (forall id | File(Upper, id) in s.files :: File(Base, id) in s.files)
  {
    FilesWholeIff(c, u, files, jobs, schedule);
    TiersCoherentIff(c, u, files, jobs, schedule);
  }

  /**
    A use that gets a block gets the one it asked for. It is torn exactly when the
    name was put there last by a copy not finished, be its maker at work or dead.
   */
  lemma UsesAreRight(c: Config, u: iset<Bytes>, files: map<FileName, Bytes>, jobs: seq<Job>, schedule: seq<nat>, w: nat)
    requires Store.FilesOk(c, u, files) && JobsOk(u, jobs) && w < |jobs| && jobs[w].UseJob?
    requires Run(c, jobs, Initial(Lift(files), |jobs|), schedule).actors[w] == Reading
    ensures var s := Run(c, jobs, Initial(Lift(files), |jobs|), schedule);
            var phase := Step(c, jobs, s, w).actors[w];
            && (phase.Torn? || phase.Got?)
            && (phase.Got? ==> phase.block in u && c.hash(phase.block) == jobs[w].id)
            && (phase.Torn? <==> LeftUnfinished(c, files, jobs, schedule, jobs[w].id))
  {
    RunFacts(c, u, files, jobs, schedule);
    var s := Run(c, jobs, Initial(Lift(files), |jobs|), schedule);
    assert ActorOk(c, u, s.files, jobs[w], s.actors[w]);
    assert FileOk(c, u, jobs, s, File(Upper, jobs[w].id));
  }

  // ---------- When a first use exits ----------

  ghost predicate NotScheduled(schedule: seq<nat>, w: nat) {
    forall k | 0 <= k < |schedule| :: schedule[k] != w
  }

  lemma {:induction false} Unscheduled(c: Config, jobs: seq<Job>, s: State, schedule: seq<nat>, w: nat)
    requires |s.actors| == |jobs| && w < |jobs| && NotScheduled(schedule, w)
    ensures Run(c, jobs, s, schedule).actors[w] == s.actors[w]
    ensures s.files.Keys <= Run(c, jobs, s, schedule).files.Keys
    decreases |schedule|
  {
    if schedule != [] {
      FilesStay(c, jobs, s, schedule[0]);
      Unscheduled(c, jobs, Step(c, jobs, s, schedule[0]), schedule[1..], w);
    }
  }

  /**
    A first use checks, others run, and it goes on: it exits exactly when the name
    was free and was taken in between, or there is no block in the base tier to copy.
   */
  lemma UseExitsIff(c: Config, jobs: seq<Job>, s: State, w: nat, mid: seq<nat>)
    requires |s.actors| == |jobs| && w < |jobs| && jobs[w].UseJob? && s.actors[w] == CheckUpper && NotScheduled(mid, w)
    ensures var t := Run(c, jobs, Step(c, jobs, s, w), mid);
            var upper, base := File(Upper, jobs[w].id), File(Base, jobs[w].id);
            Step(c, jobs, t, w).actors[w] == Exited
            <==> upper !in s.files && (upper in t.files || base !in t.files)
  {
    Unscheduled(c, jobs, Step(c, jobs, s, w), mid, w);
  }

  // ---------- What a dead copier leaves ----------

  /** No store and no commit of this block is past its check and before its rename. */
  ghost predicate NoRenameComing(c: Config, jobs: seq<Job>, s: State, id: Id)
    requires |s.actors| == |jobs|
  {
    forall v | 0 <= v < |jobs| && !jobs[v].UseJob? && c.hash(jobs[v].block) == id :: s.actors[v] != PutUpper
  }

  lemma StepKeepsCopy(c: Config, jobs: seq<Job>, s: State, w: nat, v: nat)
    requires |s.actors| == |jobs| && CopyInPlace(jobs, s, w) && NoRenameComing(c, jobs, s, jobs[w].id) && v != w
    ensures CopyInPlace(jobs, Step(c, jobs, s, v), w)
    ensures NoRenameComing(c, jobs, Step(c, jobs, s, v), jobs[w].id)
  {
  }

  lemma {:induction false} RunKeepsCopy(c: Config, jobs: seq<Job>, s: State, w: nat, schedule: seq<nat>)
    requires |s.actors| == |jobs| && CopyInPlace(jobs, s, w) && NoRenameComing(c, jobs, s, jobs[w].id)
    requires NotScheduled(schedule, w)
    ensures CopyInPlace(jobs, Run(c, jobs, s, schedule), w)
    decreases |schedule|
  {
    if schedule != [] {
      StepKeepsCopy(c, jobs, s, w, schedule[0]);
      RunKeepsCopy(c, jobs, Step(c, jobs, s, schedule[0]), w, schedule[1..]);
    }
  }

  /**
    A process dies in the middle of a copy. The torn file stays for ever, whatever
    the others do, exactly when none of them was about to rename onto its name.
   */
  lemma TornForEverIff(c: Config, jobs: seq<Job>, s: State, w: nat)
    requires |s.actors| == |jobs| && CopyInPlace(jobs, s, w)
    ensures (forall schedule | NotScheduled(schedule, w) :: CopyInPlace(jobs, Run(c, jobs, s, schedule), w))
            <==> NoRenameComing(c, jobs, s, jobs[w].id)
  {
    if NoRenameComing(c, jobs, s, jobs[w].id) {
      forall schedule | NotScheduled(schedule, w)
        ensures CopyInPlace(jobs, Run(c, jobs, s, schedule), w)
      {
        RunKeepsCopy(c, jobs, s, w, schedule);
      }
    } else {
      var v :| 0 <= v < |jobs| && !jobs[v].UseJob? && c.hash(jobs[v].block) == jobs[w].id && s.actors[v] == PutUpper;
      assert NotScheduled([v], w) && Run(c, jobs, s, [v]) == Step(c, jobs, s, v);
      assert !CopyInPlace(jobs, Run(c, jobs, s, [v]), w);
    }
  }

  /** While it stays, every other process that reads the block reads the torn file. */
  lemma EveryUseIsTorn(c: Config, jobs: seq<Job>, s: State, w: nat, schedule: seq<nat>, v: nat)
    requires |s.actors| == |jobs| && CopyInPlace(jobs, s, w) && NoRenameComing(c, jobs, s, jobs[w].id)
    requires NotScheduled(schedule, w) && v < |jobs| && jobs[v] == jobs[w]
    requires Run(c, jobs, s, schedule).actors[v] == Reading
    ensures Step(c, jobs, Run(c, jobs, s, schedule), v).actors[v] == Torn
  {
    RunKeepsCopy(c, jobs, s, w, schedule);
  }

  // ---------- Alone, each is the operation it models ----------

  lemma AloneIsStore(c: Config, u: iset<Bytes>, files: map<FileName, Bytes>, block: Bytes)
    requires Store.FilesOk(c, u, files) && c.multi
    ensures var s := Run(c, [StoreJob(block)], Initial(Lift(files), 1), [0, 0, 0, 0]);
            s.actors[0] == Done && s.files == Lift(Store.PublishAll(c, files, c.hash(block), block))
  {
  }

  lemma AloneIsCommit(c: Config, s: Store.Storage, i: nat)
    requires c.multi && Store.CommitStashBlock(c, s, i).Some?
    ensures var block := s.disk.stash[s.stashIds[i]];
            var r := Run(c, [CommitJob(block)], Initial(Lift(s.disk.files), 1), [0, 0, 0, 0]);
            r.actors[0] == Done && r.files == Lift(Store.CommitStashBlock(c, s, i).value.0.disk.files)
  {
  }

  lemma AloneIsUse(c: Config, s: Store.Storage, i: nat, id: Id)
    requires c.multi && i !in s.committed
    ensures var r := Run(c, [UseJob(id)], Initial(Lift(s.disk.files), 1), [0, 0, 0, 0]);
            match Store.ReadBlock(c, s, i, id)
            case Some((t, block)) => r.actors[0] == Got(block) && r.files == Lift(t.disk.files)
            case None => r.actors[0] == Exited && r.files == Lift(s.disk.files)
  {
    var files := s.disk.files;
    UserRuns(c, files, id);
    if File(Upper, id) !in files && File(Base, id) in files {
      LiftUpdate(files, File(Upper, id), files[File(Base, id)]);
    }
  }

  lemma LiftUpdate(files: map<FileName, Bytes>, f: FileName, block: Bytes)
    ensures Lift(files[f := block]) == Lift(files)[f := Whole(block)]
  {
  }

  /** The four steps of a use on files at rest. */
  lemma UserRuns(c: Config, files: map<FileName, Bytes>, id: Id)
    ensures var upper, base := File(Upper, id), File(Base, id);
            Run(c, [UseJob(id)], Initial(Lift(files), 1), [0, 0, 0, 0])
            == if upper in files then State(Lift(files), [Got(files[upper])])
               else if base in files then State(Lift(files)[upper := Whole(files[base])], [Got(files[base])])
               else State(Lift(files), [Exited])
  {
  }

  // ---------- What can go wrong ----------

  /**
    A process dies in commit_stash_block after the rename. Another process commits
    the same contents, finds them in the stash tier, and is done: its version names
    a block the base tier does not have.
   */
  lemma DeadCommitLeavesGap(c: Config, block: Bytes)
    ensures var jobs := [CommitJob(block), CommitJob(block)];
            var s := Run(c, jobs, Initial(map[], 2), [0, 0, 1]);
            s.actors == [CheckBase, Done] && s.files == map[File(Upper, c.hash(block)) := Whole(block)]
  {
  }

  /** Two processes use a block for the first time: the second reads the copy the first is still making. */
  lemma SecondUserReadsTornCopy(c: Config, id: Id, block: Bytes)
    ensures var jobs := [UseJob(id), UseJob(id)];
            var s := Run(c, jobs, Initial(map[File(Base, id) := Whole(block)], 2), [0, 0, 1, 1]);
            s.actors == [Copying, Torn]
  {
  }

  /** Both check before either copies: the second finds the name taken, and exits. */
  lemma SecondUserExits(c: Config, id: Id, block: Bytes)
    ensures var jobs := [UseJob(id), UseJob(id)];
            var s := Run(c, jobs, Initial(map[File(Base, id) := Whole(block)], 2), [0, 1, 0, 1]);
            s.actors == [Copying, Exited]
  {
  }

  /**
    A process dies while it copies a block up. A store and a commit of the same
    contents find the name taken and are done, and a process that then uses the
    block reads the torn file.
   */
  lemma DeadCopyIsNotHealed(c: Config, block: Bytes)
    ensures var id := c.hash(block);
            var jobs := [UseJob(id), StoreJob(block), CommitJob(block), UseJob(id)];
            var s := Run(c, jobs, Initial(map[File(Base, id) := Whole(block)], 4), [0, 0, 1, 1, 2, 3, 3]);
            s.actors == [Copying, Done, Done, Torn]
  {
  }
}
