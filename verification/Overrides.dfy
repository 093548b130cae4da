/** `pull_all` with overrides: what its new checkpoint covers, and what is lost below it. */
module Overrides {
  import opened Bytes
  import opened Signing
  import opened ChainLog
  import opened Store
  import opened Pulls
  import opened Convergence
  import opened Runs
  import opened PublishedMerge

  lemma {:induction false} PullGrows(cfg: Config, events: seq<Event>, faults: set<nat>, s: VaultState, start: u64,
                                     head: u64)
    ensures forall x :: x in PullLoop(cfg, events, faults, s, start, head, [], 1).states ==>
              Grows(s.graph.rows, x.graph.rows)
  {
    forall g: Graph, ev: Event | Grows(s.graph.rows, g.rows) && Ingest(cfg.idOf, g, ev).Ok?
      ensures Grows(s.graph.rows, Ingest(cfg.idOf, g, ev).value.graph.rows)
    {
      IngestMakesKnown(cfg.idOf, g, ev);
      GrowsTransitive(s.graph.rows, g.rows, Ingest(cfg.idOf, g, ev).value.graph.rows);
    }
    PullPreserves(cfg, events, faults, s, start, head, [], 1, start, rows => Grows(s.graph.rows, rows));
  }

  /** An Ok pull of `(start, head]`, wherever the checkpoint stood, knows every event of the vault in that range. */
  lemma {:induction false} OkPullKnows(cfg: Config, events: seq<Event>, faults: set<nat>, s: VaultState, start: u64,
                                       head: u64, e: Event)
    requires start < head && PullLoop(cfg, events, faults, s, start, head, [], 1).ok
    requires e in events && e.content.vault == s.vaultId && start < e.anchor.block <= head
    ensures Known(cfg.idOf, Final(PullLoop(cfg, events, faults, s, start, head, [], 1)).graph.rows, e)
  {
    var end := ChunkEnd(start, head);
    var chunk := ChunkTrace(cfg, events, faults, s, start, end, [], 1);
    var touched := Touch([], Pull(events, s.vaultId, start, end));
    FirstChunkCovers(cfg, events, faults, s, start, end, [e]);
    PullLoopCovers(cfg, events, faults, Final(chunk), end, head, touched, 2, [e]);
    assert e in [e];
    var rest := PullLoop(cfg, events, faults, Final(chunk), end, head, touched, 2);
    assert Final(rest) in rest.states;
    assert Final(PullLoop(cfg, events, faults, s, start, head, [], 1)) == Final(rest);
  }

  lemma {:induction false} FirstChunkCovers(cfg: Config, events: seq<Event>, faults: set<nat>, s: VaultState,
                                            start: u64, end: u64, evs: seq<Event>)
    requires start < end && ChunkTrace(cfg, events, faults, s, start, end, [], 1).ok
    requires Covered(cfg, s, evs, start) && forall e :: e in evs ==> e in events
    ensures var x := Final(ChunkTrace(cfg, events, faults, s, start, end, [], 1));
            x.checkpoint == end && x.vaultId == s.vaultId && Covered(cfg, x, evs, end)
  {
    var fetched := Pull(events, s.vaultId, start, end);
    var ingested := IngestAll(cfg, s, fetched);
    IngestAllFollows(cfg, s, fetched);
    assert Final(ingested) in ingested.states;
    AdvancedIsCovered(cfg, events, s, start, end, evs);
    var states := PruneAll(Advance(Final(ingested), end).value, Touch([], fetched));
    PruneAllFollows(Advance(Final(ingested), end).value, Touch([], fetched));
    assert states[|states| - 1] in states;
  }

  lemma {:induction false} OkPullEndsAt(cfg: Config, events: seq<Event>, faults: set<nat>, s: VaultState, start: u64,
                                        head: u64)
    requires start < head && PullLoop(cfg, events, faults, s, start, head, [], 1).ok
    ensures var x := Final(PullLoop(cfg, events, faults, s, start, head, [], 1));
            x.checkpoint == head && x.vaultId == s.vaultId
  {
    var end := ChunkEnd(start, head);
    var chunk := ChunkTrace(cfg, events, faults, s, start, end, [], 1);
    var touched := Touch([], Pull(events, s.vaultId, start, end));
    var rest := PullLoop(cfg, events, faults, Final(chunk), end, head, touched, 2);
    FirstChunkCovers(cfg, events, faults, s, start, end, []);
    PullLoopCovers(cfg, events, faults, Final(chunk), end, head, touched, 2, []);
    assert Final(rest) in rest.states;
    assert Final(PullLoop(cfg, events, faults, s, start, head, [], 1)) == Final(rest);
  }

  /** An event of the vault that a pull from `start` leaves out although it lies above the checkpoint. */
  ghost predicate InGap(log: Log, s: VaultState, start: u64, head: u64, e: Event) {
    e in log.events && e.content.vault == s.vaultId && s.checkpoint < e.anchor.block <= Min(start, head)
  }

  /**
   After an Ok pull with any overrides the checkpoint is at the range's end, and everything up to it
   is ingested exactly when the vault's events between the old checkpoint and the range's start are.
   */
  lemma {:induction false} OverrideCoverage(cfg: Config, log: Log, faults: set<nat>, s: VaultState,
                                            fromOverride: Option<u64>, untilOverride: Option<u64>)
    requires Covered(cfg, s, log.events, s.checkpoint)
    requires fromOverride.GetOr(s.checkpoint) < untilOverride.GetOr(log.nextBlock)
    requires PullTrace(cfg, log, faults, s, fromOverride, untilOverride).ok
    ensures var x := Final(PullTrace(cfg, log, faults, s, fromOverride, untilOverride));
            var start, head := fromOverride.GetOr(s.checkpoint), untilOverride.GetOr(log.nextBlock);
            && x.checkpoint == head
            && (Covered(cfg, x, log.events, head)
                <==> forall e :: InGap(log, s, start, head, e) ==> Known(cfg.idOf, x.graph.rows, e))
  {
    var start, head := fromOverride.GetOr(s.checkpoint), untilOverride.GetOr(log.nextBlock);
    var t := PullLoop(cfg, log.events, faults, s, start, head, [], 1);
    var x := Final(t);
    OkPullEndsAt(cfg, log.events, faults, s, start, head);
    PullGrows(cfg, log.events, faults, s, start, head);
    assert x in t.states;
    forall e | e in log.events && e.content.vault == s.vaultId && e.anchor.block <= head
               && !InGap(log, s, start, head, e)
      ensures Known(cfg.idOf, x.graph.rows, e)
    {
      if e.anchor.block <= s.checkpoint {
        GrowsKeepsKnown(cfg.idOf, s.graph.rows, x.graph.rows, e);
      } else {
        OkPullKnows(cfg, log.events, faults, s, start, head, e);
      }
    }
  }

  /**
   A gap event that was not ingested before is not ingested by the pull, unless its id is repeated
   above the start.
   */
  lemma {:induction false} GapStaysUnknown(cfg: Config, log: Log, faults: set<nat>, s: VaultState, start: u64,
                                           head: u64, e: Event)
    requires InGap(log, s, start, head, e) && !Known(cfg.idOf, s.graph.rows, e)
    requires NotRepeated(cfg, log.events, s.(checkpoint := start), e)
    ensures forall x :: x in PullLoop(cfg, log.events, faults, s, start, head, [], 1).states ==>
              !Known(cfg.idOf, x.graph.rows, e)
  {
    forall g: Graph, f: Event | !Known(cfg.idOf, g.rows, e) && f in log.events && f.content.vault == s.vaultId
                                && f.anchor.block > start && Ingest(cfg.idOf, g, f).Ok?
      ensures !Known(cfg.idOf, Ingest(cfg.idOf, g, f).value.graph.rows, e)
    {
      OthersLeaveUnknown(cfg.idOf, g, f, e);
    }
    PullPreserves(cfg, log.events, faults, s, start, head, [], 1, start, rows => !Known(cfg.idOf, rows, e));
  }

  /**
   After an Ok pull up to a block above the chain's height, an event that lands later at or below that
   block is never ingested by any number of default pulls, unless its id is stored or lands again.
   */
  lemma {:induction false} UntilAboveTheHeadLoses(cfg: Config, log: Log, faults: set<nat>, s: VaultState,
                                                  fromOverride: Option<u64>, until: u64, e: Event,
                                                  attempts: seq<Attempt>)
    requires WellFormed(log) && Rooted(s.graph.rows, log.events)
    requires fromOverride.GetOr(s.checkpoint) < until && PullTrace(cfg, log, faults, s, fromOverride, Some(until)).ok
    requires log.nextBlock < e.anchor.block <= until
    requires var x := Final(PullTrace(cfg, log, faults, s, fromOverride, Some(until)));
             && !HasId(x.graph.rows, cfg.idOf(e.content))
             && forall a :: a in attempts ==> NotRepeated(cfg, a.log.events, x, e)
    ensures var x := Final(PullTrace(cfg, log, faults, s, fromOverride, Some(until)));
            e.anchor.block <= x.checkpoint && !Known(cfg.idOf, RunAttempts(cfg, x, attempts).graph.rows, e)
  {
    var start := fromOverride.GetOr(s.checkpoint);
    var t := PullLoop(cfg, log.events, faults, s, start, until, [], 1);
    OkPullEndsAt(cfg, log.events, faults, s, start, until);
    RootedIsStable(cfg, log.events, s.vaultId);
    PullPreserves(cfg, log.events, faults, s, start, until, [], 1, -1, rows => Rooted(rows, log.events));
    assert Final(t) in t.states;
    NewPlaceIsUnseen(Final(t).graph.rows, log, e.content.account, PlaceOf(e.anchor));
    SkippedIsLost(cfg, Final(t), attempts, e);
  }
}
