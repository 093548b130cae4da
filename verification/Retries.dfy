/**
 Recovery over whole runs: what any further calls, killed or not, make of a world whose merge is on
 chain. As long as the stash row is there the merge can be recovered, and never again without it.
 */
module Retries {
  import opened Bytes
  import opened Signing
  import opened ChainLog
  import opened Store
  import opened Pulls
  import opened Resolve
  import opened Runs
  import opened Outcomes
  import opened PublishedMerge
  import opened Recovery

  // ---------------------------------------------------------------------
  // Worlds only grow
  // ---------------------------------------------------------------------

  /** Revisions and events are only added, and a well-formed log stays so. */
  ghost predicate WorldGrows(w: World, x: World) {
    Grows(w.vault.graph.rows, x.vault.graph.rows) && w.log.events <= x.log.events
    && (WellFormed(w.log) ==> WellFormed(x.log))
  }

  lemma {:induction false} WorldGrowsTransitive(a: World, b: World, c: World)
    requires WorldGrows(a, b) && WorldGrows(b, c)
    ensures WorldGrows(a, c)
  {
  }

  lemma {:induction false} FinishGrows(cfg: Config, w: World, account: Word, chosen: Word, f: Event)
    ensures forall x :: x in Finish(cfg, w, account, chosen, f).states ==> WorldGrows(w, x)
  {
    if Ingest(cfg.idOf, w.vault.graph, f).Ok? {
      IngestMakesKnown(cfg.idOf, w.vault.graph, f);
    }
  }

  lemma {:induction false} PublishGrows(cfg: Config, w: World, account: Word, chosen: Word, m: Stash,
                                        stashPresent: bool, env: Env)
    requires WellFormed(w.log)
    ensures forall x :: x in Publish(cfg, w, account, chosen, m, stashPresent, env).states ==> WorldGrows(w, x)
  {
    var v := if stashPresent then w.vault else StashMerge(w.vault, account, chosen, m);
    var met, c := StepsChain(w.log, env.others), MergeContent(cfg, w.vault.vaultId, account, chosen, m);
    StepsGrow(w.log, env.others);
    assert WorldGrows(w, w.(vault := v)) && WorldGrows(w, World(v, met, w.own));
    forall x | x in Publish(cfg, w, account, chosen, m, stashPresent, env).states ensures WorldGrows(w, x) {
      PublishStates(cfg, w, account, chosen, m, stashPresent, env, x);
      if LandIn(met, c, env.slot).Some? && x != w && x != w.(vault := v) && x != World(v, met, w.own) {
        var landed := LandedWorld(w, v, c, env);
        LandGrows(met, c, env.slot);
        FinishGrows(cfg, landed, account, chosen, landed.own[|w.own|]);
        WorldGrowsTransitive(w, landed, x);
      }
    }
  }

  lemma {:induction false} AfterPullGrows(cfg: Config, w: World, key: Word, account: Word, chosen: Word,
                                          pre: set<Word>, stash: Option<Stash>, env: Env)
    requires WellFormed(w.log)
    ensures forall x :: x in AfterPull(cfg, w, key, account, chosen, pre, stash, env).states ==> WorldGrows(w, x)
  {
    var m := BuildMerge(w.vault.graph.rows, key, account, chosen, stash, env.sealed);
    if m.Ok? {
      PublishGrows(cfg, w, account, chosen, m.value, stash.Some?, env);
    }
  }

  /** The states of a live call: the one it starts in, those of its pull, those after it. */
  lemma {:induction false} LiveStates(cfg: Config, w: World, key: Word, account: Word, chosen: Word, env: Env, x: World)
    requires account in w.vault.graph.accounts
    requires x in ResolveRun(cfg, w, key, account, chosen, false, env).states
    ensures var t := Pulled(cfg, w, account, env);
            || x == w
            || (exists s :: s in t.states && x == w.(vault := s))
            || (t.ok && x in AfterPull(cfg, w.(vault := Final(t)), key, account, chosen,
                                       Heads(w.vault.graph.rows, account),
                                       Stashed(w.vault, account, chosen), env).states)
  {
  }

  lemma {:induction false} ResolveGrows(cfg: Config, w: World, key: Word, account: Word, chosen: Word, dryRun: bool,
                                        env: Env)
    requires WellFormed(w.log)
    ensures forall x :: x in ResolveRun(cfg, w, key, account, chosen, dryRun, env).states ==> WorldGrows(w, x)
  {
    assert WorldGrows(w, w);
    if account in w.vault.graph.accounts && !dryRun {
      PullFollows(cfg, w, account, env);
      var after := w.(vault := Final(Pulled(cfg, w, account, env)));
      AfterPullGrows(cfg, after, key, account, chosen, Heads(w.vault.graph.rows, account),
                     Stashed(w.vault, account, chosen), env);
      forall x | x in ResolveRun(cfg, w, key, account, chosen, dryRun, env).states ensures WorldGrows(w, x) {
        LiveStates(cfg, w, key, account, chosen, env, x);
        if WorldGrows(after, x) {
          WorldGrowsTransitive(w, after, x);
        }
      }
    }
  }

  lemma {:induction false} PullCallFollows(cfg: Config, w: World, step: Step) returns (s: VaultState)
    requires step.PullCall?
    ensures Do(cfg, w, step) == w.(vault := s) && Follows(w.vault, s)
  {
    s := PullCallLeaves(cfg, w, step);
    PullLoopFollows(cfg, w.log.events, step.faults, w.vault, step.fromOverride.GetOr(w.vault.checkpoint),
                    step.untilOverride.GetOr(w.log.nextBlock), [], 1);
  }

  lemma {:induction false} StepGrowsWorld(cfg: Config, w: World, step: Step)
    requires WellFormed(w.log)
    ensures WorldGrows(w, Do(cfg, w, step))
  {
    match step {
      case OnChain(s) =>
        StepGrows(w.log, s);
      case PullCall(faults, fromOverride, untilOverride, cut) =>
        var s := PullCallFollows(cfg, w, step);
      case ResolveCall(key, account, chosen, dryRun, env, cut) =>
        ResolveGrows(cfg, w, key, account, chosen, dryRun, env);
    }
  }

  lemma {:induction false} ClashLasts(cfg: Config, w: World, x: World)
    requires Clash(cfg, w) && WorldGrows(w, x)
    ensures Clash(cfg, x)
  {
    ClashKept(cfg, w, x);
  }

  // ---------------------------------------------------------------------
  // Every call keeps track of the merge
  // ---------------------------------------------------------------------

  lemma {:induction false} TracksWithLog(cfg: Config, w: World, log: Log, ev: Event)
    requires Tracks(cfg, w, ev) && LogGrows(w.log, log)
    ensures Tracks(cfg, w.(log := log), ev)
  {
  }

  /** Own events, freeze flags, head pointers and dropped stash rows do not matter to it. */
  lemma {:induction false} TracksIgnoresFlags(cfg: Config, w: World, x: World, ev: Event)
    requires Tracks(cfg, w, ev) && x.log == w.log && x.vault.vaultId == w.vault.vaultId
    requires x.vault.graph.rows == w.vault.graph.rows
    requires x.vault.checkpoint == w.vault.checkpoint || Known(cfg.idOf, w.vault.graph.rows, ev)
    requires ev.content.account in x.vault.graph.accounts
    requires var k := (ev.content.account, ev.content.parent);
             k in x.vault.stash ==> k in w.vault.stash && x.vault.stash[k] == w.vault.stash[k]
    ensures Tracks(cfg, x, ev)
  {
  }

  /** Whatever its overrides, a pull keeps track of a merge that it does not skip. */
  lemma {:induction false} PullKeepsTracksIfSpared(cfg: Config, w: World, s: VaultState, faults: set<nat>,
                                                   fromOverride: Option<u64>, untilOverride: Option<u64>, ev: Event)
    requires Tracks(cfg, w.(vault := s), ev)
    ensures forall x :: x in PullTrace(cfg, w.log, faults, s, fromOverride, untilOverride).states ==>
              (Tracks(cfg, w.(vault := x), ev) <==> !Skips(cfg, x, ev))
  {
    var start, head := fromOverride.GetOr(s.checkpoint), untilOverride.GetOr(w.log.nextBlock);
    PullLoopFollows(cfg, w.log.events, faults, s, start, head, [], 1);
    RootedIsStable(cfg, w.log.events, s.vaultId);
    PullPreserves(cfg, w.log.events, faults, s, start, head, [], 1, -1, rows => Rooted(rows, w.log.events));
    HeldAnchoredIsStable(cfg, w.log, s.vaultId, ev);
    PullPreserves(cfg, w.log.events, faults, s, start, head, [], 1, -1, rows => HeldAnchored(cfg, rows, ev));
    forall x | x in PullTrace(cfg, w.log, faults, s, fromOverride, untilOverride).states
      ensures Tracks(cfg, w.(vault := x), ev) <==> !Skips(cfg, x, ev)
    {
      assert Follows(s, x);
    }
  }

  /** A pull that does not start above the checkpoint spares it. */
  lemma {:induction false} PullKeepsTracks(cfg: Config, w: World, s: VaultState, faults: set<nat>,
                                           fromOverride: Option<u64>, untilOverride: Option<u64>, ev: Event)
    requires Tracks(cfg, w.(vault := s), ev) && fromOverride.GetOr(s.checkpoint) <= s.checkpoint
    ensures forall x :: x in PullTrace(cfg, w.log, faults, s, fromOverride, untilOverride).states ==>
              Tracks(cfg, w.(vault := x), ev)
  {
    PullKeepsTracksIfSpared(cfg, w, s, faults, fromOverride, untilOverride, ev);
    PullLoopSpares(cfg, w.log.events, faults, s, fromOverride.GetOr(s.checkpoint),
                   untilOverride.GetOr(w.log.nextBlock), [], 1, ev);
  }

  lemma {:induction false} PulledKeepsTracks(cfg: Config, w: World, s: VaultState, faults: set<nat>, ev: Event)
    requires Tracks(cfg, w.(vault := s), ev)
    ensures var t := PullTrace(cfg, w.log, faults, s, None, None);
            && (forall x :: x in t.states ==> Tracks(cfg, w.(vault := x), ev))
            && (t.ok ==> Known(cfg.idOf, Final(t).graph.rows, ev))
  {
    PullKeepsTracks(cfg, w, s, faults, None, None, ev);
    if PullTrace(cfg, w.log, faults, s, None, None).ok {
      var i :| 0 <= i < |w.log.events| && w.log.events[i] == ev;
      DefaultPullKnows(cfg, w.log, faults, s, ev);
    }
  }

  /** Ingesting `f`; `ev` is `f` or was known before. */
  lemma {:induction false} IngestKeepsTracks(cfg: Config, w: World, f: Event, ev: Event, i: Ingestion)
    requires Tracks(cfg, w, ev) && f in w.log.events && Ingest(cfg.idOf, w.vault.graph, f) == Ok(i)
    requires f == ev || Known(cfg.idOf, w.vault.graph.rows, ev)
    ensures Tracks(cfg, w.(vault := w.vault.(graph := i.graph)), ev)
    ensures Known(cfg.idOf, i.graph.rows, ev)
  {
    IngestMakesKnown(cfg.idOf, w.vault.graph, f);
    if f != ev {
      GrowsKeepsKnown(cfg.idOf, w.vault.graph.rows, i.graph.rows, ev);
    }
    IngestStaysRooted(cfg.idOf, w.vault.graph, f, w.log.events);
    IngestKeepsHeldAnchored(cfg, w.vault.graph, f, w.log, ev);
  }

  /** The states of the finishing steps: those after the ingest differ in flags, stash and checkpoint only. */
  lemma {:induction false} FinishStates(cfg: Config, w: World, account: Word, chosen: Word, f: Event, x: World)
    requires x in Finish(cfg, w, account, chosen, f).states && x != w
    ensures Ingest(cfg.idOf, w.vault.graph, f).Ok?
    ensures var g := Ingest(cfg.idOf, w.vault.graph, f).value.graph;
            && x.log == w.log && x.vault.vaultId == w.vault.vaultId && x.vault.graph.rows == g.rows
            && (x.vault.checkpoint == w.vault.checkpoint || x.vault.checkpoint == f.anchor.block)
            && (forall a :: a in g.accounts ==> a in x.vault.graph.accounts)
            && (forall k :: k in x.vault.stash ==> k in w.vault.stash && x.vault.stash[k] == w.vault.stash[k])
  {
  }

  /** Steps 10 to 12 of any call, for an own event `f`. */
  lemma {:induction false} FinishKeepsTracks(cfg: Config, w: World, account: Word, chosen: Word, f: Event, ev: Event)
    requires Tracks(cfg, w, ev) && f in w.log.events
    requires f == ev || Known(cfg.idOf, w.vault.graph.rows, ev)
    ensures forall x :: x in Finish(cfg, w, account, chosen, f).states ==> Tracks(cfg, x, ev)
  {
    var step := Ingest(cfg.idOf, w.vault.graph, f);
    if step.Ok? {
      var ingested := w.(vault := w.vault.(graph := step.value.graph));
      IngestKeepsTracks(cfg, w, f, ev, step.value);
      var i :| 0 <= i < |w.log.events| && w.log.events[i] == f;
      forall x | x in Finish(cfg, w, account, chosen, f).states && x != w ensures Tracks(cfg, x, ev) {
        FinishStates(cfg, w, account, chosen, f, x);
        TracksIgnoresFlags(cfg, ingested, x, ev);
      }
    }
  }

  /** Another merge lands. */
  lemma {:induction false} LandingKeepsTracks(cfg: Config, w: World, v: VaultState, c: Content, env: Env, ev: Event)
    requires Tracks(cfg, w.(vault := v), ev) && LandIn(StepsChain(w.log, env.others), c, env.slot).Some?
    ensures Tracks(cfg, LandedWorld(w, v, c, env), ev)
  {
    var met := StepsChain(w.log, env.others);
    var landed := LandedWorld(w, v, c, env);
    StepsGrow(w.log, env.others);
    LandGrows(met, c, env.slot);
    TracksWithLog(cfg, w.(vault := v), landed.log, ev);
    TracksIgnoresFlags(cfg, World(v, landed.log, w.own), landed, ev);
  }

  /** A publish is for another revision than the merged one, which has a child. */
  lemma {:induction false} PublishKeepsTracks(cfg: Config, w: World, account: Word, chosen: Word, m: Stash,
                                              stashPresent: bool, env: Env, ev: Event)
    requires Tracks(cfg, w, ev) && Known(cfg.idOf, w.vault.graph.rows, ev)
    requires chosen in Heads(w.vault.graph.rows, account)
    requires !Clash(cfg, w)
    ensures forall x :: x in Publish(cfg, w, account, chosen, m, stashPresent, env).states ==> Tracks(cfg, x, ev)
  {
    MergedHasAChild(cfg, w, ev);
    var v := if stashPresent then w.vault else StashMerge(w.vault, account, chosen, m);
    TracksIgnoresFlags(cfg, w, w.(vault := v), ev);
    var met, c := StepsChain(w.log, env.others), MergeContent(cfg, w.vault.vaultId, account, chosen, m);
    StepsGrow(w.log, env.others);
    TracksWithLog(cfg, w.(vault := v), met, ev);
    if LandIn(met, c, env.slot).Some? {
      var landed := LandedWorld(w, v, c, env);
      LandingKeepsTracks(cfg, w, v, c, env, ev);
      FinishKeepsTracks(cfg, landed, account, chosen, landed.own[|w.own|], ev);
    }
    forall x | x in Publish(cfg, w, account, chosen, m, stashPresent, env).states ensures Tracks(cfg, x, ev) {
      PublishStates(cfg, w, account, chosen, m, stashPresent, env, x);
    }
  }

  lemma {:induction false} MergedHasAChild(cfg: Config, w: World, ev: Event)
    requires Tracks(cfg, w, ev) && Known(cfg.idOf, w.vault.graph.rows, ev)
    ensures HasChild(w.vault.graph.rows, ev.content.account, ev.content.parent) || Clash(cfg, w)
  {
  }

  lemma {:induction false} AfterPullKeepsTracks(cfg: Config, w: World, key: Word, account: Word, chosen: Word,
                                                pre: set<Word>, stash: Option<Stash>, env: Env, ev: Event)
    requires Tracks(cfg, w, ev) && Known(cfg.idOf, w.vault.graph.rows, ev) && !Clash(cfg, w)
    ensures forall x :: x in AfterPull(cfg, w, key, account, chosen, pre, stash, env).states ==> Tracks(cfg, x, ev)
  {
    var s := w.vault;
    if StashMatch(cfg, s, account, chosen, stash).Some? {
      var r := ClearFrozen(s, account, MergeId(cfg, s.vaultId, account, chosen, stash.value));
      if r.Ok? {
        TracksIgnoresFlags(cfg, w, w.(vault := r.value), ev);
        TracksIgnoresFlags(cfg, w, w.(vault := ClearStash(r.value, account, chosen)), ev);
      }
    } else if chosen in Heads(s.graph.rows, account) {
      var m := BuildMerge(s.graph.rows, key, account, chosen, stash, env.sealed);
      if m.Ok? {
        PublishKeepsTracks(cfg, w, account, chosen, m.value, stash.Some?, env, ev);
      }
    }
  }

  /** Every state of any resolve call, of this account or another, for this revision or another. */
  lemma {:induction false} ResolveKeepsTracks(cfg: Config, w: World, key: Word, account: Word, chosen: Word,
                                              dryRun: bool, env: Env, ev: Event)
    requires Tracks(cfg, w, ev)
    ensures forall x :: x in ResolveRun(cfg, w, key, account, chosen, dryRun, env).states ==>
              Tracks(cfg, x, ev) || Clash(cfg, x)
  {
    if account in w.vault.graph.accounts && !dryRun {
      var t := Pulled(cfg, w, account, env);
      TracksIgnoresFlags(cfg, w, w.(vault := Prune(w.vault, account)), ev);
      PulledKeepsTracks(cfg, w, Prune(w.vault, account), env.faults, ev);
      PullFollows(cfg, w, account, env);
      var after := w.(vault := Final(t));
      var pre, stash := Heads(w.vault.graph.rows, account), Stashed(w.vault, account, chosen);
      AfterPullGrows(cfg, after, key, account, chosen, pre, stash, env);
      if t.ok && !Clash(cfg, after) {
        AfterPullKeepsTracks(cfg, after, key, account, chosen, pre, stash, env, ev);
      }
      forall x | x in ResolveRun(cfg, w, key, account, chosen, dryRun, env).states
        ensures Tracks(cfg, x, ev) || Clash(cfg, x)
      {
        LiveStates(cfg, w, key, account, chosen, env, x);
        if Clash(cfg, after) && WorldGrows(after, x) {
          ClashLasts(cfg, after, x);
        }
      }
    }
  }

  /** A pull from above the checkpoint, the one call that may skip a landed event. */
  predicate Jumps(w: World, step: Step) {
    step.PullCall? && step.fromOverride.GetOr(w.vault.checkpoint) > w.vault.checkpoint
  }

  /** No pull of the run that starts above the checkpoint skips the event. */
  ghost predicate Spares(cfg: Config, w: World, steps: seq<Step>, ev: Event)
    decreases |steps|
  {
    steps != [] ==>
      var x := Do(cfg, w, steps[0]);
      (Jumps(w, steps[0]) ==> !Skips(cfg, x.vault, ev)) && Spares(cfg, x, steps[1..], ev)
  }

  /** Every call but a pull from above the checkpoint keeps track of the merge, and that one unless it skips it. */
  lemma {:induction false} StepKeepsTracks(cfg: Config, w: World, step: Step, ev: Event)
    requires Tracks(cfg, w, ev)
    ensures var x := Do(cfg, w, step);
            Clash(cfg, x) || Tracks(cfg, x, ev) || (Jumps(w, step) && Skips(cfg, x.vault, ev))
  {
    match step {
      case OnChain(s) =>
        StepGrows(w.log, s);
        TracksWithLog(cfg, w, StepChain(w.log, s), ev);
      case PullCall(faults, fromOverride, untilOverride, cut) =>
        var s := PullCallLeaves(cfg, w, step);
        if Jumps(w, step) {
          PullKeepsTracksIfSpared(cfg, w, w.vault, faults, fromOverride, untilOverride, ev);
        } else {
          PullKeepsTracks(cfg, w, w.vault, faults, fromOverride, untilOverride, ev);
        }
      case ResolveCall(key, account, chosen, dryRun, env, cut) =>
        ResolveKeepsTracks(cfg, w, key, account, chosen, dryRun, env, ev);
    }
  }

  lemma {:induction false} RunKeepsTracks(cfg: Config, w: World, steps: seq<Step>, ev: Event)
    requires WellFormed(w.log) && (Tracks(cfg, w, ev) || Clash(cfg, w)) && Spares(cfg, w, steps, ev)
    ensures Tracks(cfg, DoAll(cfg, w, steps), ev) || Clash(cfg, DoAll(cfg, w, steps))
    decreases |steps|
  {
    if steps != [] {
      var x := Do(cfg, w, steps[0]);
      StepGrowsWorld(cfg, w, steps[0]);
      if Tracks(cfg, w, ev) {
        StepKeepsTracks(cfg, w, steps[0], ev);
      } else {
        ClashLasts(cfg, w, x);
      }
      RunKeepsTracks(cfg, x, steps[1..], ev);
    }
  }

  // ---------------------------------------------------------------------
  // The stash row gone
  // ---------------------------------------------------------------------

  /** The stash row is gone and the merged revision has a child, the merge or another. */
  ghost predicate Spent(v: VaultState, account: Word, chosen: Word) {
    (account, chosen) !in v.stash && HasChild(v.graph.rows, account, chosen)
  }

  lemma {:induction false} SpentLater(s: VaultState, x: VaultState, account: Word, chosen: Word)
    requires Spent(s, account, chosen) && Grows(s.graph.rows, x.graph.rows) && (account, chosen) !in x.stash
    ensures Spent(x, account, chosen)
  {
  }

  /** The only call that stashes a row is one whose chosen revision is a head. */
  lemma {:induction false} AfterPullStashesHeads(cfg: Config, w: World, key: Word, account: Word, chosen: Word,
                                                 pre: set<Word>, stash: Option<Stash>, env: Env)
    ensures forall x, k :: x in AfterPull(cfg, w, key, account, chosen, pre, stash,
                                          env).states && k in x.vault.stash ==>
              k in w.vault.stash || (k.1 in Heads(w.vault.graph.rows, k.0))
  {
    var s := w.vault;
    if StashMatch(cfg, s, account, chosen, stash).None? && chosen in Heads(s.graph.rows, account) {
      var m := BuildMerge(s.graph.rows, key, account, chosen, stash, env.sealed);
      if m.Ok? {
        PublishStashesOne(cfg, w, account, chosen, m.value, stash.Some?, env);
      }
    }
  }

  lemma {:induction false} PublishStashesOne(cfg: Config, w: World, account: Word, chosen: Word, m: Stash,
                                             stashPresent: bool, env: Env)
    ensures forall x, k :: x in Publish(cfg, w, account, chosen, m, stashPresent, env).states && k in x.vault.stash ==>
              k in w.vault.stash || k == (account, chosen)
  {
    var met, c := StepsChain(w.log, env.others), MergeContent(cfg, w.vault.vaultId, account, chosen, m);
    if env.fate.Confirmed? && LandIn(met, c, env.slot).Some? {
      var v := if stashPresent then w.vault else StashMerge(w.vault, account, chosen, m);
      var landed := LandedWorld(w, v, c, env);
      FinishStashesNothing(cfg, landed, account, chosen, landed.own[|w.own|]);
    }
  }

  lemma {:induction false} FinishStashesNothing(cfg: Config, w: World, account: Word, chosen: Word, f: Event)
    ensures forall x, k :: x in Finish(cfg, w, account, chosen, f).states && k in x.vault.stash ==> k in w.vault.stash
  {
  }

  /** A spent revision stays spent, whatever is called for whichever account. */
  lemma {:induction false} ResolveKeepsSpent(cfg: Config, w: World, key: Word, account: Word, chosen: Word,
                                             dryRun: bool, env: Env, a: Word, target: Word)
    requires WellFormed(w.log) && Spent(w.vault, a, target)
    ensures forall x :: x in ResolveRun(cfg, w, key, account, chosen, dryRun, env).states ==> Spent(x.vault, a, target)
  {
    ResolveGrows(cfg, w, key, account, chosen, dryRun, env);
    if account in w.vault.graph.accounts && !dryRun {
      PullFollows(cfg, w, account, env);
      var after := w.(vault := Final(Pulled(cfg, w, account, env)));
      SpentLater(w.vault, after.vault, a, target);
      NotAHeadWithChild(after.vault.graph.rows, a, target);
      AfterPullStashesHeads(cfg, after, key, account, chosen, Heads(w.vault.graph.rows, account),
                            Stashed(w.vault, account, chosen), env);
      forall x | x in ResolveRun(cfg, w, key, account, chosen, dryRun, env).states ensures Spent(x.vault, a, target) {
        LiveStates(cfg, w, key, account, chosen, env, x);
        SpentLater(w.vault, x.vault, a, target);
      }
    }
  }

  lemma {:induction false} StepKeepsSpent(cfg: Config, w: World, step: Step, a: Word, target: Word)
    requires WellFormed(w.log) && Spent(w.vault, a, target)
    ensures Spent(Do(cfg, w, step).vault, a, target)
  {
    match step {
      case OnChain(s) =>
      case PullCall(faults, fromOverride, untilOverride, cut) =>
        var s := PullCallFollows(cfg, w, step);
        SpentLater(w.vault, s, a, target);
      case ResolveCall(key, account, chosen, dryRun, env, cut) =>
        ResolveKeepsSpent(cfg, w, key, account, chosen, dryRun, env, a, target);
    }
  }

  lemma {:induction false} RunKeepsSpent(cfg: Config, w: World, steps: seq<Step>, a: Word, target: Word)
    requires WellFormed(w.log) && Spent(w.vault, a, target)
    ensures Spent(DoAll(cfg, w, steps).vault, a, target) && WellFormed(DoAll(cfg, w, steps).log)
    decreases |steps|
  {
    if steps != [] {
      StepGrowsWorld(cfg, w, steps[0]);
      StepKeepsSpent(cfg, w, steps[0], a, target);
      RunKeepsSpent(cfg, Do(cfg, w, steps[0]), steps[1..], a, target);
    }
  }

  /** A call for a spent revision: refused, at the latest after its pull. */
  lemma {:induction false} SpentIsRefused(cfg: Config, w: World, key: Word, account: Word, chosen: Word, dryRun: bool,
                                          env: Env)
    requires Spent(w.vault, account, chosen)
    ensures var r := ResolveRun(cfg, w, key, account, chosen, dryRun, env);
            && (forall x :: x in r.states ==> x.log == w.log && x.own == w.own && ThawsNothing(w.vault, x.vault))
            && (if account !in w.vault.graph.accounts then r.outcome.AccountMissing?
                else if dryRun then r.outcome.NotCurrentHead?
                else if !Pulled(cfg, w, account, env).ok then r.outcome.ChainFailed?
                else r.outcome.NotCurrentHead? || r.outcome.ChainMoved?)
  {
    NotAHeadWithChild(w.vault.graph.rows, account, chosen);
    if account in w.vault.graph.accounts && !dryRun {
      var p := Final(Pulled(cfg, w, account, env));
      PullFollows(cfg, w, account, env);
      GrowsKeepsChild(w.vault.graph.rows, p.graph.rows, account, chosen);
      NotAHeadWithChild(p.graph.rows, account, chosen);
      forall x | x in ResolveRun(cfg, w, key, account, chosen, dryRun, env).states
        ensures x.log == w.log && x.own == w.own && ThawsNothing(w.vault, x.vault)
      {
        LiveStates(cfg, w, key, account, chosen, env, x);
      }
    }
  }

  /**
   Once the stash row is gone and the chosen revision has a child, no run of any calls makes a resolve
   of that revision thaw, publish or recover anything again.
   */
  lemma {:induction false} SpentIsForGood(cfg: Config, w: World, steps: seq<Step>, key: Word, account: Word,
                                          chosen: Word, dryRun: bool, env: Env)
    requires WellFormed(w.log) && Spent(w.vault, account, chosen)
    ensures var y := DoAll(cfg, w, steps);
            var r := ResolveRun(cfg, y, key, account, chosen, dryRun, env);
            && !r.outcome.AlreadyOnChain? && !r.outcome.Published?
            && forall x :: x in r.states ==> x.log == y.log && x.own == y.own && ThawsNothing(y.vault, x.vault)
  {
    RunKeepsSpent(cfg, w, steps, account, chosen);
    SpentIsRefused(cfg, DoAll(cfg, w, steps), key, account, chosen, dryRun, env);
  }

  // ---------------------------------------------------------------------
  // Recoverable, spent, and nothing in between
  // ---------------------------------------------------------------------

  /** The chosen revision is stored, and is stashed for or has a child. */
  ghost predicate Accounted(v: VaultState, account: Word, chosen: Word) {
    HasRow(v.graph.rows, account, chosen) && ((account, chosen) in v.stash || HasChild(v.graph.rows, account, chosen))
  }

  lemma {:induction false} FollowsKeepsAccounted(s: VaultState, x: VaultState, account: Word, chosen: Word)
    requires Follows(s, x) && Accounted(s, account, chosen)
    ensures Accounted(x, account, chosen)
  {
  }

  lemma {:induction false} ResolveKeepsAccounted(cfg: Config, w: World, key: Word, account: Word, chosen: Word,
                                                 dryRun: bool, env: Env, ev: Event)
    requires Tracks(cfg, w, ev) && Accounted(w.vault, ev.content.account, ev.content.parent)
    ensures forall x :: x in ResolveRun(cfg, w, key, account, chosen, dryRun, env).states ==>
              Accounted(x.vault, ev.content.account, ev.content.parent) || Clash(cfg, x)
  {
    if account in w.vault.graph.accounts && !dryRun {
      var t := Pulled(cfg, w, account, env);
      var after := w.(vault := Final(t));
      PullFollows(cfg, w, account, env);
      TracksIgnoresFlags(cfg, w, w.(vault := Prune(w.vault, account)), ev);
      PulledKeepsTracks(cfg, w, Prune(w.vault, account), env.faults, ev);
      var pre, stash := Heads(w.vault.graph.rows, account), Stashed(w.vault, account, chosen);
      AfterPullGrows(cfg, after, key, account, chosen, pre, stash, env);
      forall x | x in ResolveRun(cfg, w, key, account, chosen, dryRun, env).states
        ensures Accounted(x.vault, ev.content.account, ev.content.parent) || Clash(cfg, x)
      {
        LiveStates(cfg, w, key, account, chosen, env, x);
        if t.ok && x in AfterPull(cfg, after, key, account, chosen, pre, stash, env).states {
          GrownIsAccounted(cfg, w, after, x, ev);
        } else if x != w {
          FollowsKeepsAccounted(w.vault, x.vault, ev.content.account, ev.content.parent);
        }
      }
    }
  }

  /** After a pull that knows the merge, the merged revision has a child for good. */
  lemma {:induction false} GrownIsAccounted(cfg: Config, w: World, after: World, x: World, ev: Event)
    requires Tracks(cfg, after, ev) && Known(cfg.idOf, after.vault.graph.rows, ev) && WorldGrows(after, x)
    requires Grows(w.vault.graph.rows, after.vault.graph.rows)
    requires HasRow(w.vault.graph.rows, ev.content.account, ev.content.parent)
    ensures Accounted(x.vault, ev.content.account, ev.content.parent) || Clash(cfg, x)
  {
    MergedHasAChild(cfg, after, ev);
    if Clash(cfg, after) {
      ClashLasts(cfg, after, x);
    } else {
      GrowsTransitive(w.vault.graph.rows, after.vault.graph.rows, x.vault.graph.rows);
      GrowsKeepsRow(w.vault.graph.rows, x.vault.graph.rows, ev.content.account, ev.content.parent);
      GrowsKeepsChild(after.vault.graph.rows, x.vault.graph.rows, ev.content.account, ev.content.parent);
    }
  }

  lemma {:induction false} StepKeepsAccounted(cfg: Config, w: World, step: Step, ev: Event)
    requires Tracks(cfg, w, ev) && Accounted(w.vault, ev.content.account, ev.content.parent)
    ensures Accounted(Do(cfg, w, step).vault, ev.content.account, ev.content.parent) || Clash(cfg, Do(cfg, w, step))
  {
    match step {
      case OnChain(s) =>
      case PullCall(faults, fromOverride, untilOverride, cut) =>
        var s := PullCallFollows(cfg, w, step);
        FollowsKeepsAccounted(w.vault, s, ev.content.account, ev.content.parent);
      case ResolveCall(key, account, chosen, dryRun, env, cut) =>
        ResolveKeepsAccounted(cfg, w, key, account, chosen, dryRun, env, ev);
    }
  }

  /** The merge is on chain and tracked, and its revision is stashed for or has a child. */
  ghost predicate Landed(cfg: Config, w: World, ev: Event) {
    Tracks(cfg, w, ev) && Accounted(w.vault, ev.content.account, ev.content.parent)
  }

  /**
   Whatever calls are made, for whichever accounts, with whichever keys, killed anywhere: a world
   whose merge has landed stays recoverable as long as the stash row is there, and is spent for
   good when the row is gone. The alternative is a clash of canonical ids.
   */
  lemma {:induction false} RecoverableOrSpent(cfg: Config, w: World, steps: seq<Step>, ev: Event)
    requires WellFormed(w.log) && (Landed(cfg, w, ev) || Clash(cfg, w)) && Spares(cfg, w, steps, ev)
    ensures var y, account, chosen := DoAll(cfg, w, steps), ev.content.account, ev.content.parent;
            || Clash(cfg, y)
            || (Landed(cfg, y, ev)
                && if (account, chosen) in y.vault.stash then Recoverable(cfg, y, account, chosen, ev)
                   else Spent(y.vault, account, chosen))
    decreases |steps|
  {
    if steps != [] {
      var x := Do(cfg, w, steps[0]);
      StepGrowsWorld(cfg, w, steps[0]);
      if Clash(cfg, w) {
        ClashLasts(cfg, w, x);
      } else {
        StepKeepsTracks(cfg, w, steps[0], ev);
        StepKeepsAccounted(cfg, w, steps[0], ev);
      }
      RecoverableOrSpent(cfg, x, steps[1..], ev);
    }
  }

  /** Every state of a retry, killed or failed: recoverable again if and only if the stash row is still there. */
  lemma {:induction false} KilledRetryIsRecoverableIffStashed(
    cfg: Config, w: World, key: Word, account: Word, chosen: Word, env: Env, ev: Event, x: World)
    requires Recoverable(cfg, w, account, chosen, ev)
    requires x in ResolveRun(cfg, w, key, account, chosen, false, env).states
    ensures Clash(cfg, x) || (Recoverable(cfg, x, account, chosen, ev) <==> (account, chosen) in x.vault.stash)
  {
    ResolveKeepsTracks(cfg, w, key, account, chosen, false, env, ev);
  }
}
