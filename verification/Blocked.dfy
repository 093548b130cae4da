/** An event with a device id that is not canonical, which anybody can publish: what it does to pulls and resolves. */
module Blocked {
  import opened Bytes
  import opened Signing
  import opened ChainLog
  import opened Store
  import opened Pulls
  import opened Resolve
  import opened Runs
  import opened Outcomes
  import opened PublishedMerge
  import opened Retries

  /** An event of the vault above the checkpoint that no pull accepts. */
  ghost predicate Blocks(cfg: Config, w: World, e: Event) {
    && e in w.log.events && e.content.vault == w.vault.vaultId && !cfg.canonicalKey(e.content.device)
    && w.vault.checkpoint < e.anchor.block
  }

  lemma {:induction false} IngestAllStopsAt(cfg: Config, s: VaultState, evs: seq<Event>, e: Event)
    requires e in evs && !cfg.canonicalKey(e.content.device)
    ensures !IngestAll(cfg, s, evs).ok
    decreases |evs|
  {
    if Accepts(cfg, s.graph, evs) {
      assert evs == [evs[0]] + evs[1..];
      IngestAllStopsAt(cfg, s.(graph := Ingest(cfg.idOf, s.graph, evs[0]).value.graph), evs[1..], e);
    }
  }

  /** Whatever adapter calls fail, a pull from below the event stops below it. */
  lemma {:induction false} PullStopsBelow(cfg: Config, events: seq<Event>, faults: set<nat>, s: VaultState, start: u64,
                                          head: u64, touched: seq<Word>, call: nat, e: Event)
    requires e in events && e.content.vault == s.vaultId && !cfg.canonicalKey(e.content.device)
    requires start < e.anchor.block && s.checkpoint < e.anchor.block
    ensures var t := PullLoop(cfg, events, faults, s, start, head, touched, call);
            && (forall x :: x in t.states ==> x.checkpoint < e.anchor.block)
            && (e.anchor.block <= head ==> !t.ok)
    decreases head as int - start as int
  {
    if start < head {
      var end := ChunkEnd(start, head);
      var chunk := ChunkTrace(cfg, events, faults, s, start, end, touched, call);
      ChunkFollows(cfg, events, faults, s, start, end, touched, call);
      if e.anchor.block <= end {
        var fetched := Pull(events, s.vaultId, start, end);
        PullMembers(events, s.vaultId, start, end, e);
        IngestAllStopsAt(cfg, s, fetched, e);
        IngestAllFollows(cfg, s, fetched);
      } else if chunk.ok {
        assert Final(chunk) in chunk.states;
        PullStopsBelow(cfg, events, faults, Final(chunk), end, head,
                       Touch(touched, Pull(events, s.vaultId, start, end)), call + 1, e);
      }
    }
  }

  lemma {:induction false} BlockedPullFails(cfg: Config, w: World, account: Word, env: Env, e: Event)
    requires WellFormed(w.log) && Blocks(cfg, w, e)
    ensures !Pulled(cfg, w, account, env).ok
    ensures forall x :: x in Pulled(cfg, w, account, env).states ==> Blocks(cfg, w.(vault := x), e)
  {
    var pruned := Prune(w.vault, account);
    var i :| 0 <= i < |w.log.events| && w.log.events[i] == e;
    PullStopsBelow(cfg, w.log.events, env.faults, pruned, w.vault.checkpoint, w.log.nextBlock, [], 1, e);
    PullFollows(cfg, w, account, env);
  }

  /** A resolve gets no further than its pull. */
  lemma {:induction false} BlockedResolveFails(cfg: Config, w: World, key: Word, account: Word, chosen: Word,
                                               dryRun: bool, env: Env, e: Event)
    requires WellFormed(w.log) && Blocks(cfg, w, e)
    ensures var r := ResolveRun(cfg, w, key, account, chosen, dryRun, env);
            && (forall x :: x in r.states ==>
                  x.log == w.log && x.own == w.own && ThawsNothing(w.vault, x.vault) && Blocks(cfg, x, e))
            && (!dryRun ==> r.outcome == if account in w.vault.graph.accounts then ChainFailed else AccountMissing)
  {
    if account in w.vault.graph.accounts && !dryRun {
      BlockedPullFails(cfg, w, account, env, e);
      PullFollows(cfg, w, account, env);
      forall x | x in ResolveRun(cfg, w, key, account, chosen, dryRun, env).states
        ensures x.log == w.log && x.own == w.own && ThawsNothing(w.vault, x.vault) && Blocks(cfg, x, e)
      {
        LiveStates(cfg, w, key, account, chosen, env, x);
      }
    }
  }

  /** Every pull of the run that starts at or above the event, so as to leave it out, is excluded. */
  ghost predicate StaysBelow(cfg: Config, w: World, steps: seq<Step>, e: Event)
    decreases |steps|
  {
    steps != [] ==>
      && (steps[0].PullCall? ==> steps[0].fromOverride.GetOr(w.vault.checkpoint) < e.anchor.block)
      && StaysBelow(cfg, Do(cfg, w, steps[0]), steps[1..], e)
  }

  lemma {:induction false} StepStaysBlocked(cfg: Config, w: World, step: Step, e: Event)
    requires WellFormed(w.log) && Blocks(cfg, w, e)
    requires step.PullCall? ==> step.fromOverride.GetOr(w.vault.checkpoint) < e.anchor.block
    ensures Blocks(cfg, Do(cfg, w, step), e) && Do(cfg, w, step).own == w.own
  {
    match step {
      case OnChain(s) =>
        StepGrows(w.log, s);
      case PullCall(faults, fromOverride, untilOverride, cut) =>
        var s := PullCallLeaves(cfg, w, step);
        PullStopsBelow(cfg, w.log.events, faults, w.vault, fromOverride.GetOr(w.vault.checkpoint),
                       untilOverride.GetOr(w.log.nextBlock), [], 1, e);
        PullLoopFollows(cfg, w.log.events, faults, w.vault, fromOverride.GetOr(w.vault.checkpoint),
                        untilOverride.GetOr(w.log.nextBlock), [], 1);
      case ResolveCall(key, account, chosen, dryRun, env, cut) =>
        BlockedResolveFails(cfg, w, key, account, chosen, dryRun, env, e);
    }
  }

  /**
   For good: whatever is called, with whatever adapter faults, as long as no pull starts at or above the
   event, the checkpoint stays below it, this device publishes nothing, and every live resolve ends
   with its failed pull.
   */
  lemma {:induction false} BlockedForGood(cfg: Config, w: World, steps: seq<Step>, e: Event, key: Word, account: Word,
                                          chosen: Word, env: Env)
    requires WellFormed(w.log) && Blocks(cfg, w, e) && StaysBelow(cfg, w, steps, e)
    ensures var y := DoAll(cfg, w, steps);
            && Blocks(cfg, y, e) && y.own == w.own && !Pulled(cfg, y, account, env).ok
            && ResolveRun(cfg, y, key, account, chosen, false, env).outcome
               == if account in y.vault.graph.accounts then ChainFailed else AccountMissing
    decreases |steps|
  {
    if steps == [] {
      BlockedPullFails(cfg, w, account, env, e);
      BlockedResolveFails(cfg, w, key, account, chosen, false, env, e);
    } else {
      StepStaysBlocked(cfg, w, steps[0], e);
      StepGrowsWorld(cfg, w, steps[0]);
      BlockedForGood(cfg, Do(cfg, w, steps[0]), steps[1..], e, key, account, chosen, env);
    }
  }
}
