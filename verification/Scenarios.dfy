/**
 Concrete inputs for the places where the code does not do what its comments or its obvious reading
 say: one instance each, of what is proved for all inputs elsewhere.
 */
module Scenarios {
  import opened Bytes
  import opened Signing
  import opened ChainLog
  import opened Store
  import opened Pulls
  import opened Resolve
  import opened Runs
  import opened Outcomes
  import opened PublishedMerge
  import opened Recovery
  import opened Retries
  import opened SkippedMerges
  import opened Blocked
  import LogPull

  // ---------------------------------------------------------------------
  // A merge that another device has built on
  // ---------------------------------------------------------------------

  function Tag(n: byte): (w: Word)
    ensures w[0] == n
  {
    seq(32, _ => n)
  }

  const TAGGED := Config((c: Content) => Tag(if c.payload == [] then 0 else c.payload[0]), (_: Word) => true,
                         (seed: Word) => seed)
  const CHOSEN := Content(Tag(9), Tag(8), Tag(0), Tag(5), 0, [1])
  const MERGE := Content(Tag(9), Tag(8), Tag(1), Tag(5), 0, [2])
  const CHILD := Content(Tag(9), Tag(8), Tag(2), Tag(6), 0, [3])
  const BUILT_ON := World(
    VaultState(Tag(9), Graph([Row(Tag(1), CHOSEN, None)], map[Tag(8) := Identity(Tag(1), true)]),
               map[(Tag(8), Tag(1)) := Stash(Tag(5), [], [2], 0)], 0),
    Log(2, 2, [Event(MERGE, Anchor(Tag(20), 1, 0, 0)), Event(CHILD, Anchor(Tag(21), 2, 0, 1))]),
    [Event(MERGE, Anchor(Tag(20), 1, 0, 0))])

  ghost predicate FromThree(rows: seq<Row>) {
    forall r :: r in rows ==>
        (r.content == CHOSEN || r.content == MERGE || r.content == CHILD) && r.id == TAGGED.idOf(r.content)
  }

  lemma {:induction false} ThreeDoNotClash(v: VaultState)
    requires FromThree(v.graph.rows)
    ensures !Clash(TAGGED, BUILT_ON.(vault := v))
  {
  }

  lemma {:induction false} IngestStaysFromThree(g: Graph, f: Event)
    requires FromThree(g.rows) && (f.content == MERGE || f.content == CHILD) && Ingest(TAGGED.idOf, g, f).Ok?
    ensures FromThree(Ingest(TAGGED.idOf, g, f).value.graph.rows)
  {
  }

  lemma {:induction false} ThreeArePulled(env: Env)
    ensures FromThree(Final(Pulled(TAGGED, BUILT_ON, Tag(8), env)).graph.rows)
  {
    var events := BUILT_ON.log.events;
    forall g: Graph, f: Event | FromThree(g.rows) && f in events && Ingest(TAGGED.idOf, g, f).Ok?
      ensures FromThree(Ingest(TAGGED.idOf, g, f).value.graph.rows)
    {
      IngestStaysFromThree(g, f);
    }
    PullPreserves(TAGGED, events, env.faults, Prune(BUILT_ON.vault, Tag(8)), 0, 2, [], 1, -1, rows => FromThree(rows));
    PullFollows(TAGGED, BUILT_ON, Tag(8), env);
  }

  lemma {:induction false} ThreeBindAccounts()
    ensures IdsBindAccounts(TAGGED.idOf, BUILT_ON.vault.graph, BUILT_ON.log.events)
  {
  }

  /** Recovery does fail when another device has built on the merge: a concrete world, and any retry without faults. */
  lemma {:induction false} BuiltOnIsNotRecovered(key: Word, env: Env)
    requires env.faults == {}
    ensures Recoverable(TAGGED, BUILT_ON, Tag(8), Tag(1), BUILT_ON.log.events[0])
    ensures ResolveRun(TAGGED, BUILT_ON, key, Tag(8), Tag(1), false, env).outcome == StoreFailed(NotAHead)
  {
    var events := BUILT_ON.log.events;
    assert TAGGED.idOf(MERGE) == Tag(2);
    assert WellFormed(BUILT_ON.log);
    assert BUILT_ON.vault.stash[(Tag(8), Tag(1))] == Stash(Tag(5), [], [2], 0);
    assert Recoverable(TAGGED, BUILT_ON, Tag(8), Tag(1), events[0]);
    assert events[1] in events;
    assert Extended(BUILT_ON, Tag(8), Tag(2));
    ThreeBindAccounts();
    QuietPullSucceeds(TAGGED, BUILT_ON, Tag(8), env);
    ThreeArePulled(env);
    ThreeDoNotClash(Final(Pulled(TAGGED, BUILT_ON, Tag(8), env)));
    RetryRecovers(TAGGED, BUILT_ON, key, Tag(8), Tag(1), env, events[0]);
  }

  // ---------------------------------------------------------------------
  // A retry that loses its stash row
  // ---------------------------------------------------------------------

  const ROOT := Row(Tag(1), CHOSEN, None)
  const LANDED := Event(MERGE, Anchor(Tag(20), 1, 0, 0))

  /** A resolve killed between step 10 and step 11: the merge is on chain and ingested, the account is frozen. */
  const HALTED := World(
    VaultState(Tag(9),
               Graph([ROOT, Row(Tag(2), MERGE, Some(PlaceOf(LANDED.anchor)))], map[Tag(8) := Identity(Tag(1), true)]),
               map[(Tag(8), Tag(1)) := Stash(Tag(5), [], [2], 0)], 0),
    Log(1, 1, [LANDED]), [LANDED])

  lemma {:induction false} HaltedIsRecoverable()
    ensures Recoverable(TAGGED, HALTED, Tag(8), Tag(1), LANDED)
  {
  }

  lemma {:induction false} HaltedRowIsPruned()
    ensures Prune(HALTED.vault, Tag(8)).stash == map[]
    ensures HasChild(HALTED.vault.graph.rows, Tag(8), Tag(1))
  {
  }

  /**
   A retry of it that fails at the very first call to the chain has lost the stash row, and from then
   on, whatever is run, no resolve of that revision thaws the account.
   */
  lemma {:induction false} FailedRetryLosesTheRow(key: Word, env: Env, steps: seq<Step>, key': Word, dryRun: bool,
                                                  env': Env)
    requires env.faults == {0}
    ensures var r := ResolveRun(TAGGED, HALTED, key, Tag(8), Tag(1), false, env);
            var y := DoAll(TAGGED, Last(r), steps);
            var later := ResolveRun(TAGGED, y, key', Tag(8), Tag(1), dryRun, env');
            && r.outcome == ChainFailed && Last(r).vault.stash == map[]
            && Last(r).vault.graph == HALTED.vault.graph && HALTED.vault.graph.accounts[Tag(8)].frozen
            && !later.outcome.AlreadyOnChain? && !later.outcome.Published?
            && forall x :: x in later.states ==> ThawsNothing(y.vault, x.vault)
  {
    HaltedIsRecoverable();
    HaltedRowIsPruned();
    var r := ResolveRun(TAGGED, HALTED, key, Tag(8), Tag(1), false, env);
    assert Last(r) == HALTED.(vault := Prune(HALTED.vault, Tag(8)));
    SpentIsForGood(TAGGED, Last(r), steps, key', Tag(8), Tag(1), dryRun, env');
  }

  // ---------------------------------------------------------------------
  // A pull that skips this device's own merge
  // ---------------------------------------------------------------------

  /** A resolve killed right after its publish landed in block 1; block 2 is empty. */
  const UNREPORTED := World(
    VaultState(Tag(9), Graph([ROOT], map[Tag(8) := Identity(Tag(1), true)]),
               map[(Tag(8), Tag(1)) := Stash(Tag(5), [], [2], 0)], 0),
    Log(1, 2, [LANDED]), [LANDED])

  /** ... after a pull with `--from-block 1`: the checkpoint is at 2. */
  const JUMPED := UNREPORTED.(vault := UNREPORTED.vault.(checkpoint := 2))

  lemma {:induction false} PullFromAboveJumps()
    ensures PullTrace(TAGGED, UNREPORTED.log, {}, UNREPORTED.vault, Some(1), None)
            == Trace([UNREPORTED.vault, JUMPED.vault, JUMPED.vault], true)
  {
    var s := UNREPORTED.vault;
    assert Pull(UNREPORTED.log.events, Tag(9), 1, 2) == [] by {
      PullNothing(UNREPORTED.log.events, Tag(9), 1, 2);
    }
    var chunk := ChunkTrace(TAGGED, UNREPORTED.log.events, {}, s, 1, 2, [], 1);
    assert IngestAll(TAGGED, s, []) == Trace([s], true);
    assert chunk == Trace([s, JUMPED.vault], true);
    assert PullLoop(TAGGED, UNREPORTED.log.events, {}, JUMPED.vault, 2, 2, [], 2) == Trace([JUMPED.vault], true);
    assert [s, JUMPED.vault] + [JUMPED.vault] == [s, JUMPED.vault, JUMPED.vault];
  }

  /** The same as a step of a run, not killed. */
  lemma {:induction false} PullCallJumps()
    ensures Do(TAGGED, UNREPORTED, PullCall({}, Some(1), None, 2)) == JUMPED
  {
    PullFromAboveJumps();
    var states := PullStates(TAGGED, UNREPORTED, {}, Some(1), None);
    assert states[2] == UNREPORTED.(vault := JUMPED.vault);
  }

  lemma {:induction false} UnreportedIsRecoverable()
    ensures Recoverable(TAGGED, UNREPORTED, Tag(8), Tag(1), LANDED) && UpToDate(TAGGED, UNREPORTED)
    ensures Skips(TAGGED, JUMPED.vault, LANDED)
    ensures Heads(JUMPED.vault.graph.rows, Tag(8)) == {Tag(1)}
  {
    assert UNREPORTED.vault.stash[(Tag(8), Tag(1))] == Stash(Tag(5), [], [2], 0);
    assert TAGGED.idOf(MERGE) == Tag(2) && Tag(1)[0] != Tag(2)[0] && Tag(0)[0] != Tag(1)[0];
    assert UNREPORTED.log.events[0] == LANDED && UNREPORTED.vault.graph.rows[0] in UNREPORTED.vault.graph.rows;
    assert forall r :: r in UNREPORTED.vault.graph.rows ==> r == ROOT;
  }

  /**
   The pull starts above the checkpoint and skips the merge, with the stash row still there. The next
   resolve, unless its publish is lost, puts the same merge on chain once more: two merges of one
   head. And it is not told that the merge was there.
   */
  lemma {:induction false} JumpedPublishesTwice(key: Word, env: Env)
    requires env.faults == {} && !env.fate.Lost? && LandIn(StepsChain(JUMPED.log, env.others), MERGE, env.slot).Some?
    ensures Recoverable(TAGGED, UNREPORTED, Tag(8), Tag(1), LANDED)
    ensures Do(TAGGED, UNREPORTED, PullCall({}, Some(1), None, 2)) == JUMPED
    ensures (Tag(8), Tag(1)) in JUMPED.vault.stash
    ensures var r := ResolveRun(TAGGED, JUMPED, key, Tag(8), Tag(1), false, env);
            !OncePerHead(Last(r).own) && |Last(r).own| == 2 && Last(r).own[1].content == LANDED.content
            && !r.outcome.AlreadyOnChain?
  {
    UnreportedIsRecoverable();
    PullCallJumps();
    JumpedIsStashed();
    SkippedIsPublishedAgain(TAGGED, JUMPED, key, Tag(8), Tag(1), env, LANDED);
    SkippedMergeIsNotRecovered(TAGGED, JUMPED, key, Tag(8), Tag(1), env);
  }

  lemma {:induction false} JumpedIsStashed()
    ensures (Tag(8), Tag(1)) in JUMPED.vault.stash
    ensures MergeContent(TAGGED, Tag(9), Tag(8), Tag(1), JUMPED.vault.stash[(Tag(8), Tag(1))]) == MERGE
  {
    assert JUMPED.vault.stash[(Tag(8), Tag(1))] == Stash(Tag(5), [], [2], 0);
  }

  // ---------------------------------------------------------------------
  // Events that a published merge skips
  // ---------------------------------------------------------------------

  const FORK := Content(Tag(9), Tag(8), Tag(1), Tag(6), 0, [4])
  const LATE := Content(Tag(9), Tag(8), Tag(1), Tag(6), 0, [5])
  const FROZEN := World(
    VaultState(Tag(9), Graph([ROOT], map[Tag(8) := Identity(Tag(1), true)]), map[], 0), EMPTY, [])
  const RACE := Env({}, Some(Sealed([2], [])), [Block([Entry(FORK, Tag(20), 0)])],
                    Slot([], Tag(21), 0, [Entry(LATE, Tag(22), 1)]), Confirmed)

  const FORKED := Event(FORK, Anchor(Tag(20), 1, 0, 0))
  const MERGED := Event(MERGE, Anchor(Tag(21), 2, 0, 1))
  const BEHIND := Event(LATE, Anchor(Tag(22), 2, 1, 2))

  /** The call right after its publish landed: a fork in the block before, another behind it in its own block. */
  const RACED := World(
    StashMerge(FROZEN.vault, Tag(8), Tag(1), Stash(Tag(5), [], [2], 0)), Log(3, 2, [FORKED, MERGED, BEHIND]), [MERGED])

  lemma {:induction false} RaceLands()
    ensures StepsChain(EMPTY, RACE.others) == Log(1, 1, [FORKED])
    ensures LandIn(Log(1, 1, [FORKED]), MERGE, RACE.slot) == Some(RACED.log)
    ensures OwnEvent(Log(1, 1, [FORKED]), MERGE, RACE.slot) == MERGED
  {
    assert RACE.others[1..] == [];
    assert EventsOf([Entry(FORK, Tag(20), 0)], 1, 0) == [FORKED];
    var entries := [Entry(MERGE, Tag(21), 0), Entry(LATE, Tag(22), 1)];
    assert RACE.slot.front + [Entry(MERGE, Tag(21), 0)] + RACE.slot.back == entries;
    assert EventsOf(entries, 2, 1) == [MERGED, BEHIND];
    assert [FORKED] + [MERGED, BEHIND] == RACED.log.events;
  }

  lemma {:induction false} RacePulls()
    ensures Pulled(TAGGED, FROZEN, Tag(8), RACE) == Trace([FROZEN.vault], true)
    ensures Heads(FROZEN.vault.graph.rows, Tag(8)) == {Tag(1)}
  {
  }

  lemma {:induction false} RaceFinishes()
    ensures var r := Finish(TAGGED, RACED, Tag(8), Tag(1), MERGED);
            && r.outcome == Published(Tag(2), MERGED.anchor)
            && Last(r).log == RACED.log && Last(r).vault.checkpoint == 2
            && Last(r).vault.graph.rows == [ROOT, Row(Tag(2), MERGE, Some(PlaceOf(MERGED.anchor)))]
  {
    var rows := RACED.vault.graph.rows;
    assert TAGGED.idOf(MERGE) == Tag(2) && Tag(1)[0] != Tag(2)[0] && Tag(0)[0] != Tag(2)[0];
    assert rows == [ROOT] && rows[0] in rows;
    assert Unseen(TAGGED, rows, MERGE);
    RacePulls();
    FinishResult(TAGGED, RACED, Tag(8), Tag(1), MERGED);
    FinishEndsAt(TAGGED, RACED, Tag(8), Tag(1), MERGED);
  }

  lemma {:induction false} RacePublishes()
    ensures var r := Publish(TAGGED, FROZEN, Tag(8), Tag(1), Stash(Tag(5), [], [2], 0), false, RACE);
            var rest := Finish(TAGGED, RACED, Tag(8), Tag(1), MERGED);
            r.outcome == rest.outcome && Last(r) == Last(rest) && RACED in r.states
  {
    RaceLands();
    var m := Stash(Tag(5), [], [2], 0);
    assert MergeContent(TAGGED, Tag(9), Tag(8), Tag(1), m) == MERGE;
    assert FROZEN.own + [MERGED] == RACED.own;
    var rest := Finish(TAGGED, RACED, Tag(8), Tag(1), MERGED);
    assert rest.states[0] in rest.states;
  }

  lemma {:induction false} RaceRuns()
    ensures ResolveRun(TAGGED, FROZEN, Tag(5), Tag(8), Tag(1), false, RACE).outcome
            == Finish(TAGGED, RACED, Tag(8), Tag(1), MERGED).outcome
    ensures Last(ResolveRun(TAGGED, FROZEN, Tag(5), Tag(8), Tag(1), false, RACE))
            == Last(Finish(TAGGED, RACED, Tag(8), Tag(1), MERGED))
    ensures RACED in ResolveRun(TAGGED, FROZEN, Tag(5), Tag(8), Tag(1), false, RACE).states
  {
    RacePulls();
    RacePublishes();
    var m := Stash(Tag(5), [], [2], 0);
    assert BuildMerge(FROZEN.vault.graph.rows, Tag(5), Tag(8), Tag(1), None, RACE.sealed) == Ok(m);
    var published := Publish(TAGGED, FROZEN, Tag(8), Tag(1), m, false, RACE);
    assert AfterPull(TAGGED, FROZEN, Tag(5), Tag(8), Tag(1), {Tag(1)}, None, RACE) == published;
  }

  lemma {:induction false} ForksAreUnknown(rows: seq<Row>)
    requires rows == [ROOT, Row(Tag(2), MERGE, Some(PlaceOf(MERGED.anchor)))]
    ensures !Known(TAGGED.idOf, rows, FORKED) && !Known(TAGGED.idOf, rows, BEHIND)
  {
  }

  lemma {:induction false} FrozenIsSane()
    ensures Sane(FROZEN)
  {
  }

  lemma {:induction false} RacedIsStashed()
    ensures RACED.own != FROZEN.own && (Tag(8), Tag(1)) in RACED.vault.stash
  {
  }

  /** The world is a sane one to start from, and the call may be killed between landing and ingest. */
  lemma {:induction false} RaceIsAKillToRecoverFrom()
    ensures Sane(FROZEN)
    ensures RACED in ResolveRun(TAGGED, FROZEN, Tag(5), Tag(8), Tag(1), false, RACE).states
    ensures RACED.own != FROZEN.own && (Tag(8), Tag(1)) in RACED.vault.stash
  {
    FrozenIsSane();
    RaceRuns();
    RacedIsStashed();
  }

  /**
   One fork lands between pull and publish, another behind the merge in the merge's own block: the
   resolve succeeds, the checkpoint has passed both, and the vault knows neither.
   */
  lemma {:induction false} RaceSkipsTheForks()
    ensures ResolveRun(TAGGED, FROZEN, Tag(5), Tag(8), Tag(1), false, RACE).outcome.Published?
    ensures var x := Last(ResolveRun(TAGGED, FROZEN, Tag(5), Tag(8), Tag(1), false, RACE));
            && x.log.events == [FORKED, MERGED, BEHIND]
            && FORKED.anchor.block < BEHIND.anchor.block == MERGED.anchor.block == x.vault.checkpoint
            && !Known(TAGGED.idOf, x.vault.graph.rows, FORKED) && !Known(TAGGED.idOf, x.vault.graph.rows, BEHIND)
  {
    RaceFinishes();
    RaceRuns();
    ForksAreUnknown(Last(Finish(TAGGED, RACED, Tag(8), Tag(1), MERGED)).vault.graph.rows);
  }

  // ---------------------------------------------------------------------
  // An event that stops the vault
  // ---------------------------------------------------------------------

  const STRICT := TAGGED.(canonicalKey := (key: Word) => key != Tag(7))
  const JUNK := Event(Content(Tag(9), Tag(8), Tag(1), Tag(7), 0, [6]), Anchor(Tag(20), 1, 0, 0))
  const STOPPED := FROZEN.(log := Log(1, 1, [JUNK]))

  /** Anybody's event with a device id that is not canonical: pulls from below never get past it. */
  lemma {:induction false} JunkStopsTheVault(steps: seq<Step>, key: Word, env: Env)
    requires StaysBelow(STRICT, STOPPED, steps, JUNK)
    ensures var y := DoAll(STRICT, STOPPED, steps);
            && y.vault.checkpoint == 0
            && !ResolveRun(STRICT, y, key, Tag(8), Tag(1), false, env).outcome.Published?
  {
    assert STOPPED.log.events[0] == JUNK;
    BlockedForGood(STRICT, STOPPED, steps, JUNK, key, Tag(8), Tag(1), env);
  }

  // ---------------------------------------------------------------------
  // Smaller ones
  // ---------------------------------------------------------------------

  /** A pull from block 0 of a vault whose checkpoint is 9,000 fails on an empty chain without any fault. */
  lemma {:induction false} PullFromBelowFails()
    ensures var s := FROZEN.vault.(checkpoint := 9_000);
            !PullTrace(TAGGED, Log(0, 9_000, []), {}, s, Some(0), None).ok
  {
  }

  /** Two seals, two ids: what a dry run plans is not what the next run publishes. */
  lemma {:induction false} DryRunPlansAnotherId()
    ensures ResolveRun(TAGGED, FROZEN, Tag(5), Tag(8), Tag(1), true,
                       RACE.(sealed := Some(Sealed([6], [])))).outcome == DryRun(Tag(6))
    ensures ResolveRun(TAGGED, FROZEN, Tag(5), Tag(8), Tag(1), false, RACE).outcome == Published(Tag(2), MERGED.anchor)
    ensures Tag(6) != Tag(2)
  {
    RaceFinishes();
    RaceRuns();
    RacePulls();
    assert Tag(6)[0] != Tag(2)[0];
    var m := Stash(Tag(5), [], [6], 0);
    assert BuildMerge(FROZEN.vault.graph.rows, Tag(5), Tag(8), Tag(1), None, Some(Sealed([6], []))) == Ok(m);
    assert TAGGED.idOf(MergeContent(TAGGED, Tag(9), Tag(8), Tag(1), m)) == Tag(6);
  }

  const CONTRACT: LogPull.Deployment := LogPull.Deployment([7], _ => true)
  const AT_THE_END := LogPull.RawLog([7], Some(FORK), 0, Some(U64_MAX), Some(0), Some(Tag(20)))

  /** A pull from the last u64 block returns an event of that block, which the reference pull excludes. */
  lemma {:induction false} LastBlockIsReadAgain()
    ensures var ev := Event(FORK, Anchor(Tag(20), U64_MAX, 0, 0));
            && LogPull.PullSinceSpec((lo, hi) => Ok([AT_THE_END]), CONTRACT, Err(LogPull.Rpc), U64_MAX,
                                     Some(U64_MAX)) == Ok([ev])
            && Pull([ev], Tag(9), U64_MAX, U64_MAX) == []
  {
    var rpc: LogPull.GetLogs := (lo, hi) => Ok([AT_THE_END]);
    var ev := Event(FORK, Anchor(Tag(20), U64_MAX, 0, 0));
    assert [AT_THE_END][1..] == [];
    assert LogPull.Native(CONTRACT, [AT_THE_END]) == [AT_THE_END];
    assert LogPull.DecodeLog(CONTRACT, AT_THE_END) == Ok(ev);
    assert [ev] + [] == [ev];
    assert LogPull.DecodeAll(CONTRACT, [AT_THE_END]) == LogPull.Onto([ev], Ok([]));
    assert LogPull.ChunkedPull(rpc, CONTRACT, U64_MAX, U64_MAX) == Ok([Event(FORK, Anchor(Tag(20), U64_MAX, 0, 0))]);
  }
}
