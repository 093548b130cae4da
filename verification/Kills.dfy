/**
 Kills: where a resolve may be killed after its publish landed and be retried, and where a retry may
 not be killed.
 */
module Kills {
  import opened Bytes
  import opened Signing
  import opened ChainLog
  import opened Store
  import opened Pulls
  import opened Resolve
  import opened Runs
  import opened Outcomes
  import opened PublishedMerge
  import opened Recovery
  import opened Retries

  // ---------------------------------------------------------------------
  // The retry's own pull drops the row
  // ---------------------------------------------------------------------

  lemma {:induction false} TouchHolds(touched: seq<Word>, evs: seq<Event>, a: Word)
    requires a in touched || exists e :: e in evs && e.content.account == a
    ensures a in Touch(touched, evs)
    decreases |evs|
  {
    if evs != [] {
      var b := evs[0].content.account;
      if a !in touched && b != a {
        var e :| e in evs && e.content.account == a;
        assert evs == [evs[0]] + evs[1..];
      }
      TouchHolds(if b in touched then touched else touched + [b], evs[1..], a);
    }
  }

  lemma {:induction false} PruneAllDrops(s: VaultState, accounts: seq<Word>, account: Word, chosen: Word)
    requires account in accounts && account in s.graph.accounts && HasChild(s.graph.rows, account, chosen)
    ensures (account, chosen) !in PruneAll(s, accounts)[|PruneAll(s, accounts)| - 1].stash
    decreases |accounts|
  {
    var next := Prune(s, accounts[0]);
    if accounts[0] == account {
      NotAHeadWithChild(s.graph.rows, account, chosen);
      PruneAllFollows(next, accounts[1..]);
      assert PruneAll(s, accounts)[|PruneAll(s, accounts)| - 1] in PruneAll(next, accounts[1..]);
    } else {
      PruneAllDrops(next, accounts[1..], account, chosen);
    }
  }

  /** Ingesting events of the vault, the merge among them, gives the merged revision a child, unless ids clash. */
  lemma {:induction false} IngestedHasAChild(cfg: Config, l: Log, s: VaultState, evs: seq<Event>, ev: Event)
    requires WellFormed(l) && Rooted(s.graph.rows, l.events) && ev in evs && IngestAll(cfg, s, evs).ok
    requires forall e :: e in evs ==> e in l.events && e.content.vault == s.vaultId
    ensures var rows := Final(IngestAll(cfg, s, evs)).graph.rows;
            HasChild(rows, ev.content.account, ev.content.parent) || ContentClash(cfg, rows, ev.content)
  {
    var t := IngestAll(cfg, s, evs);
    IngestAllKnows(cfg, s, evs, ev);
    RootedIsStable(cfg, l.events, s.vaultId);
    forall e | e in evs ensures e.anchor.block > -1 {
    }
    IngestAllPreserves(cfg, s, evs, l.events, s.vaultId, -1, rows => Rooted(rows, l.events));
    assert Final(t) in t.states;
    KnownDemotesItsParent(cfg, Final(t).graph.rows, l, ev);
  }

  /** The chunk that brings the merge in prunes its stash row. */
  lemma {:induction false} ChunkDropsTheRow(cfg: Config, l: Log, faults: set<nat>, s: VaultState, start: u64,
                                            end: u64, touched: seq<Word>, call: nat, ev: Event)
    requires WellFormed(l) && Rooted(s.graph.rows, l.events) && ev in l.events && ev.content.vault == s.vaultId
    requires start < ev.anchor.block <= end && ev.content.account in s.graph.accounts
    requires ChunkTrace(cfg, l.events, faults, s, start, end, touched, call).ok
    ensures var x := Final(ChunkTrace(cfg, l.events, faults, s, start, end, touched, call));
            (ev.content.account, ev.content.parent) !in x.stash || ContentClash(cfg, x.graph.rows, ev.content)
  {
    var evs := Pull(l.events, s.vaultId, start, end);
    forall e ensures e in evs <==> e in l.events && InWindow(e, s.vaultId, start, end) {
      PullMembers(l.events, s.vaultId, start, end, e);
    }
    IngestedHasAChild(cfg, l, s, evs, ev);
    IngestAllKeepsAccounts(cfg, s, evs, ev.content.account);
    var advanced := Advance(Final(IngestAll(cfg, s, evs)), end).value;
    var states := PruneAll(advanced, Touch(touched, evs));
    PruneAllFollows(advanced, Touch(touched, evs));
    assert states[|states| - 1] in states;
    if HasChild(advanced.graph.rows, ev.content.account, ev.content.parent) {
      TouchHolds(touched, evs, ev.content.account);
      PruneAllDrops(advanced, Touch(touched, evs), ev.content.account, ev.content.parent);
    }
  }

  lemma {:induction false} LoopDropsTheRow(cfg: Config, l: Log, faults: set<nat>, s: VaultState, start: u64,
                                           head: u64, touched: seq<Word>, call: nat, ev: Event)
    requires WellFormed(l) && Rooted(s.graph.rows, l.events) && ev in l.events && ev.content.vault == s.vaultId
    requires s.checkpoint <= start < ev.anchor.block <= head && ev.content.account in s.graph.accounts
    requires PullLoop(cfg, l.events, faults, s, start, head, touched, call).ok
    ensures var x := Final(PullLoop(cfg, l.events, faults, s, start, head, touched, call));
            (ev.content.account, ev.content.parent) !in x.stash || ContentClash(cfg, x.graph.rows, ev.content)
    decreases head as int - start as int
  {
    var end := ChunkEnd(start, head);
    var chunk := ChunkTrace(cfg, l.events, faults, s, start, end, touched, call);
    var touched' := Touch(touched, Pull(l.events, s.vaultId, start, end));
    var rest := PullLoop(cfg, l.events, faults, Final(chunk), end, head, touched', call + 1);
    assert Final(chunk) in chunk.states && Final(rest) in rest.states;
    assert Final(PullLoop(cfg, l.events, faults, s, start, head, touched, call)) == Final(rest);
    ChunkCovers(cfg, l.events, faults, s, start, end, touched, call, []);
    if ev.anchor.block <= end {
      ChunkDropsTheRow(cfg, l, faults, s, start, end, touched, call, ev);
      PullLoopCovers(cfg, l.events, faults, Final(chunk), end, head, touched', call + 1, []);
      if ContentClash(cfg, Final(chunk).graph.rows, ev.content) {
        ContentClashKept(cfg, Final(chunk).graph.rows, Final(rest).graph.rows, ev.content);
      }
    } else {
      RootedIsStable(cfg, l.events, s.vaultId);
      ChunkPreserves(cfg, l.events, faults, s, start, end, touched, call, -1, rows => Rooted(rows, l.events));
      LoopDropsTheRow(cfg, l, faults, Final(chunk), end, head, touched', call + 1, ev);
    }
  }

  lemma {:induction false} ContentClashKept(cfg: Config, rows: seq<Row>, rows': seq<Row>, c: Content)
    requires ContentClash(cfg, rows, c) && Grows(rows, rows')
    ensures ContentClash(cfg, rows', c)
  {
  }

  /**
   A retry whose pull succeeds has always lost its stash row by then, while the account is as frozen as
   before: the state it passes through between its pull and its thaw is spent. A kill there is for good.
   */
  lemma {:induction false} RetryIsSpentBeforeItThaws(cfg: Config, w: World, key: Word, account: Word, chosen: Word,
                                                     env: Env, ev: Event)
    requires Recoverable(cfg, w, account, chosen, ev) && Pulled(cfg, w, account, env).ok
    ensures var x := w.(vault := Final(Pulled(cfg, w, account, env)));
            && x in ResolveRun(cfg, w, key, account, chosen, false, env).states
            && ThawsNothing(w.vault, x.vault)
            && (Spent(x.vault, account, chosen) || Clash(cfg, x))
  {
    var pruned := Prune(w.vault, account);
    var t := Pulled(cfg, w, account, env);
    var x := w.(vault := Final(t));
    PullFollows(cfg, w, account, env);
    InWorldHolds(w, t.states, Final(t));
    TracksIgnoresFlags(cfg, w, w.(vault := pruned), ev);
    PulledKeepsTracks(cfg, w, pruned, env.faults, ev);
    MergedHasAChild(cfg, x, ev);
    if !Clash(cfg, x) {
      NoClashNoContentClash(cfg, x, ev);
      if ev.anchor.block <= w.vault.checkpoint {
        KnownRowIsPruned(cfg, w, x, ev);
        PullLoopCovers(cfg, w.log.events, env.faults, pruned, pruned.checkpoint, w.log.nextBlock, [], 1, []);
        assert Follows(pruned, Final(t));
      } else {
        var i :| 0 <= i < |w.log.events| && w.log.events[i] == ev;
        LoopDropsTheRow(cfg, w.log, env.faults, pruned, pruned.checkpoint, w.log.nextBlock, [], 1, ev);
      }
    }
  }

  lemma {:induction false} InWorldHolds(w: World, states: seq<VaultState>, s: VaultState)
    requires s in states
    ensures w.(vault := s) in InWorld(w, states)
  {
  }

  lemma {:induction false} KnownRowIsPruned(cfg: Config, w: World, x: World, ev: Event)
    requires Tracks(cfg, w, ev) && ev.anchor.block <= w.vault.checkpoint && WorldGrows(w, x) && !Clash(cfg, x)
    ensures (ev.content.account, ev.content.parent) !in Prune(w.vault, ev.content.account).stash
  {
    MergedHasAChild(cfg, w, ev);
    if Clash(cfg, w) {
      ClashLasts(cfg, w, x);
    } else {
      NotAHeadWithChild(w.vault.graph.rows, ev.content.account, ev.content.parent);
    }
  }

  // ---------------------------------------------------------------------
  // Kills after landing
  // ---------------------------------------------------------------------

  /** A merge that has just landed on top of a head is tracked. */
  lemma {:induction false} LandingIsTracked(cfg: Config, w: World, v: VaultState, c: Content, env: Env)
    requires Sane(w) && v.vaultId == w.vault.vaultId && v.graph == w.vault.graph && v.checkpoint == w.vault.checkpoint
    requires c.vault == v.vaultId && c.account in v.graph.accounts && c.parent in Heads(v.graph.rows, c.account)
    requires LandIn(StepsChain(w.log, env.others), c, env.slot).Some?
    requires var k := (c.account, c.parent);
             k in v.stash && MergeContent(cfg, v.vaultId, c.account, c.parent, v.stash[k]) == c
    ensures var x := LandedWorld(w, v, c, env);
            Tracks(cfg, x, x.own[|w.own|]) || ContentClash(cfg, v.graph.rows, c)
  {
    var met := StepsChain(w.log, env.others);
    var x := LandedWorld(w, v, c, env);
    var ev := x.own[|w.own|];
    StepsGrow(w.log, env.others);
    LogUntilLanding(w.log, env.others, c, env.slot);
    RootedInLongerLog(v.graph.rows, w.log.events, met.events);
    LandGrows(met, c, env.slot);
    RootedInLongerLog(v.graph.rows, met.events, x.log.events);
    OnHeadIsUnseen(cfg, v.graph.rows, c);
    NewPlaceIsUnseen(v.graph.rows, met, c.account, PlaceOf(ev.anchor));
    if !ContentClash(cfg, v.graph.rows, c) {
      assert HeldAnchored(cfg, v.graph.rows, ev);
    }
  }

  /** From landing to clearing the stash row is there; once it is cleared, the account is thawed onto the merge. */
  lemma {:induction false} FinishKeepsTheRowUntilThawed(cfg: Config, w: World, account: Word, chosen: Word, f: Event,
                                                        x: World)
    requires x in Finish(cfg, w, account, chosen, f).states && (account, chosen) in w.vault.stash
    ensures x.log == w.log && x.own == w.own
    ensures || (account, chosen) in x.vault.stash
            || (&& account in x.vault.graph.accounts
                && x.vault.graph.accounts[account] == Identity(cfg.idOf(f.content), false)
                && HasId(x.vault.graph.rows, cfg.idOf(f.content)))
  {
  }

  /** What a call leaves behind when it is killed, or ends, after its publish landed. */
  ghost predicate KilledAfterLanding(cfg: Config, x: World, account: Word, chosen: Word, ev: Event) {
    && Landed(cfg, x, ev)
    && (|| (account, chosen) in x.vault.stash
        || (account in x.vault.graph.accounts
            && x.vault.graph.accounts[account] == Identity(cfg.idOf(ev.content), false)))
  }

  lemma {:induction false} PublishKilled(cfg: Config, w: World, account: Word, chosen: Word, m: Stash,
                                         stashPresent: bool, env: Env, x: World) returns (ev: Event)
    requires Sane(w) && account in w.vault.graph.accounts && chosen in Heads(w.vault.graph.rows, account)
    requires stashPresent ==> (account, chosen) in w.vault.stash && w.vault.stash[(account, chosen)] == m
    requires x in Publish(cfg, w, account, chosen, m, stashPresent, env).states && x.own != w.own
    ensures x.own == w.own + [ev] && ev in x.log.events && ev.content.account == account && ev.content.parent == chosen
    ensures KilledAfterLanding(cfg, x, account, chosen, ev) || Clash(cfg, x)
  {
    var v := if stashPresent then w.vault else StashMerge(w.vault, account, chosen, m);
    var met, c := StepsChain(w.log, env.others), MergeContent(cfg, w.vault.vaultId, account, chosen, m);
    PublishStates(cfg, w, account, chosen, m, stashPresent, env, x);
    var landed := LandedWorld(w, v, c, env);
    ev := landed.own[|w.own|];
    LandingIsTracked(cfg, w, v, c, env);
    FinishKeepsTheRowUntilThawed(cfg, landed, account, chosen, ev, x);
    FinishGrows(cfg, landed, account, chosen, ev);
    if ContentClash(cfg, v.graph.rows, c) {
      ContentClashKept(cfg, v.graph.rows, x.vault.graph.rows, c);
      ContentClashIsClash(cfg, x, ev);
    } else {
      FinishKeepsTracks(cfg, landed, account, chosen, ev, ev);
      LandedIsAccounted(cfg, landed, x, ev);
    }
  }

  lemma {:induction false} ContentClashIsClash(cfg: Config, x: World, ev: Event)
    requires ContentClash(cfg, x.vault.graph.rows, ev.content) && ev in x.log.events
    ensures Clash(cfg, x)
  {
  }

  lemma {:induction false} LandedIsAccounted(cfg: Config, w: World, x: World, ev: Event)
    requires Tracks(cfg, x, ev) && Grows(w.vault.graph.rows, x.vault.graph.rows)
    requires ev.content.parent in Heads(w.vault.graph.rows, ev.content.account)
    requires (ev.content.account, ev.content.parent) in x.vault.stash || HasId(x.vault.graph.rows, cfg.idOf(ev.content))
    ensures Accounted(x.vault, ev.content.account, ev.content.parent) || Clash(cfg, x)
  {
  }

  /** Only the publish adds to the device's own events. */
  lemma {:induction false} KilledInPublish(cfg: Config, w: World, key: Word, account: Word, chosen: Word,
                                           pre: set<Word>, stash: Option<Stash>, env: Env, x: World)
    requires x in AfterPull(cfg, w, key, account, chosen, pre, stash, env).states && x.own != w.own
    ensures chosen in Heads(w.vault.graph.rows, account) && Heads(w.vault.graph.rows, account) <= pre
    ensures BuildMerge(w.vault.graph.rows, key, account, chosen, stash, env.sealed).Ok?
    ensures x in Publish(cfg, w, account, chosen,
                         BuildMerge(w.vault.graph.rows, key, account, chosen, stash, env.sealed).value,
                         stash.Some?, env).states
  {
  }

  /** While the chosen revision is a head before and after a pull, its stash row stays. */
  lemma {:induction false} HeadKeepsItsRow(s: VaultState, x: VaultState, account: Word, chosen: Word)
    requires Follows(s, x) && (account, chosen) in s.stash
    requires chosen in Heads(s.graph.rows, account) && chosen in Heads(x.graph.rows, account)
    ensures (account, chosen) in x.stash && x.stash[(account, chosen)] == s.stash[(account, chosen)]
  {
  }

  /**
   From the landing of its publish on, a resolve has its stash row until it has thawed the account onto
   the merge, and what a kill (or an error) leaves at any point is a landed world. The alternative is
   a clash of canonical ids.
   */
  lemma {:induction false} KilledIsRecoverable(cfg: Config, w: World, key: Word, account: Word, chosen: Word,
                                               env: Env, x: World)
    returns (ev: Event)
    requires Sane(w)
    requires x in ResolveRun(cfg, w, key, account, chosen, false, env).states && x.own != w.own
    ensures x.own == w.own + [ev] && ev in x.log.events && ev.content.account == account && ev.content.parent == chosen
    ensures KilledAfterLanding(cfg, x, account, chosen, ev) || Clash(cfg, x)
  {
    var p := Final(Pulled(cfg, w, account, env));
    var after := w.(vault := p);
    var pre, stash := Heads(w.vault.graph.rows, account), Stashed(w.vault, account, chosen);
    PullFollows(cfg, w, account, env);
    PulledIsSane(cfg, w, account, env);
    LiveStates(cfg, w, key, account, chosen, env, x);
    KilledInPublish(cfg, after, key, account, chosen, pre, stash, env, x);
    if stash.Some? {
      HeadKeepsItsRow(w.vault, p, account, chosen);
    }
    var m := BuildMerge(p.graph.rows, key, account, chosen, stash, env.sealed).value;
    ev := PublishKilled(cfg, after, account, chosen, m, stash.Some?, env, x);
  }

  /**
   How a retry in the world `y` of a landed merge `id` may end. With the stash row there and the pull
   successful it recovers exactly when nobody has built on the merge; without the row it is refused.
   */
  ghost predicate EndsRight(cfg: Config, y: World, account: Word, chosen: Word, id: Word, env: Env, r: Run) {
    var t := Pulled(cfg, y, account, env);
    var p := y.(vault := Final(t));
    r.states != []
    && if (account, chosen) !in y.vault.stash then
         && Spent(y.vault, account, chosen) && !r.outcome.AlreadyOnChain? && !r.outcome.Published?
         && forall z :: z in r.states ==> z.log == y.log && ThawsNothing(y.vault, z.vault)
       else if !t.ok then r.outcome == ChainFailed && Last(r) == p && ThawsNothing(y.vault, p.vault)
       else if Extended(y, account, id) then r.outcome == StoreFailed(NotAHead) && Last(r) == p
       else
         && account in p.vault.graph.accounts && r.outcome.AlreadyOnChain? && r.outcome.id == id
         && Last(r) == y.(vault := Settled(p.vault, account, chosen, id))
  }

  lemma {:induction false} LandedRetryEndsRight(cfg: Config, y: World, key: Word, account: Word, chosen: Word,
                                                env: Env, ev: Event)
    requires Landed(cfg, y, ev) && ev.content.account == account && ev.content.parent == chosen
    requires (account, chosen) !in y.vault.stash ==> Spent(y.vault, account, chosen)
    ensures || Clash(cfg, y.(vault := Final(Pulled(cfg, y, account, env))))
            || EndsRight(cfg, y, account, chosen, cfg.idOf(ev.content), env,
                         ResolveRun(cfg, y, key, account, chosen, false, env))
  {
    PullFollows(cfg, y, account, env);
    if (account, chosen) !in y.vault.stash {
      SpentIsRefused(cfg, y, key, account, chosen, false, env);
    } else if Pulled(cfg, y, account, env).ok {
      RetryRecovers(cfg, y, key, account, chosen, env, ev);
    } else {
      FailedPullEndsTheCall(cfg, y, key, account, chosen, env);
    }
  }

  lemma {:induction false} FailedPullEndsTheCall(cfg: Config, w: World, key: Word, account: Word, chosen: Word,
                                                 env: Env)
    requires account in w.vault.graph.accounts && !Pulled(cfg, w, account, env).ok
    ensures var r := ResolveRun(cfg, w, key, account, chosen, false, env);
            r.outcome == ChainFailed && Last(r) == w.(vault := Final(Pulled(cfg, w, account, env)))
  {
  }

  lemma {:induction false} LandedRunEndsRight(cfg: Config, x: World, more: seq<Step>, key: Word, account: Word,
                                              chosen: Word, env: Env, ev: Event)
    requires WellFormed(x.log) && (Landed(cfg, x, ev) || Clash(cfg, x)) && Spares(cfg, x, more, ev)
    requires ev.content.account == account && ev.content.parent == chosen
    ensures var y := DoAll(cfg, x, more);
            || Clash(cfg, y.(vault := Final(Pulled(cfg, y, account, env))))
            || EndsRight(cfg, y, account, chosen, cfg.idOf(ev.content), env,
                         ResolveRun(cfg, y, key, account, chosen, false, env))
  {
    var y := DoAll(cfg, x, more);
    RecoverableOrSpent(cfg, x, more, ev);
    if Clash(cfg, y) {
      PullFollows(cfg, y, account, env);
      ClashLasts(cfg, y, y.(vault := Final(Pulled(cfg, y, account, env))));
    } else {
      LandedRetryEndsRight(cfg, y, key, account, chosen, env, ev);
    }
  }

  /**
   End to end. Kill a resolve anywhere after its publish landed, and make any run of further calls,
   killed anywhere, with other devices publishing all along. Either the stash row is still there, and
   then a retry with any key, if its pull succeeds and nobody has built on the merge, reports the
   very merge that the first call published, thaws the account onto it and publishes nothing; or the
   row is gone, and then no resolve of that revision thaws or publishes anything again. The
   alternative is a clash of canonical ids.
   */
  lemma {:induction false} KillThenRetry(cfg: Config, w: World, key: Word, account: Word, chosen: Word, env: Env,
                                         x: World, more: seq<Step>, key': Word, env': Env)
    requires Sane(w)
    requires x in ResolveRun(cfg, w, key, account, chosen, false, env).states && x.own != w.own
    requires |x.own| > |w.own| ==> Spares(cfg, x, more, x.own[|w.own|])
    ensures |x.own| == |w.own| + 1 && w.own < x.own
    ensures var y := DoAll(cfg, x, more);
            || Clash(cfg, y.(vault := Final(Pulled(cfg, y, account, env'))))
            || EndsRight(cfg, y, account, chosen, cfg.idOf(x.own[|w.own|].content), env',
                         ResolveRun(cfg, y, key', account, chosen, false, env'))
  {
    var ev := KilledIsRecoverable(cfg, w, key, account, chosen, env, x);
    ResolveGrows(cfg, w, key, account, chosen, false, env);
    LandedRunEndsRight(cfg, x, more, key', account, chosen, env', ev);
  }
}
