/**
 What comes of an own merge that a pull has skipped: the only way to a second merge of one head, and
 a way indeed.
 */
module SkippedMerges {
  import opened Bytes
  import opened Signing
  import opened ChainLog
  import opened Store
  import opened Pulls
  import opened Resolve
  import opened Runs
  import opened Outcomes
  import opened PublishedMerge
  import opened Retries
  import opened Kills

  /** A resolve publishes over a revision that has an own merge already only if that merge is skipped, or ids clash. */
  lemma {:induction false} PublishedAgainMeansSkipped(cfg: Config, w: World, key: Word, account: Word, chosen: Word,
                                                      env: Env, x: World, e: Event)
    requires Based(w) && e in w.own && e in w.log.events && e.content.vault == w.vault.vaultId
    requires Merges(e, account, chosen)
    requires x in ResolveRun(cfg, w, key, account, chosen, false, env).states && x.own != w.own
    ensures Skips(cfg, w.vault, e) || Clash(cfg, w.(vault := Final(Pulled(cfg, w, account, env))))
  {
    var pruned := Prune(w.vault, account);
    var after := w.(vault := Final(Pulled(cfg, w, account, env)));
    LiveStates(cfg, w, key, account, chosen, env, x);
    KilledInPublish(cfg, after, key, account, chosen, Heads(w.vault.graph.rows, account),
                    Stashed(w.vault, account, chosen), env, x);
    if !Skips(cfg, w.vault, e) {
      PulledIsBased(cfg, w, account, env);
      var i :| 0 <= i < |w.log.events| && w.log.events[i] == e;
      DefaultPullKnows(cfg, w.log, env.faults, pruned, e);
      KnownMergeOnAHead(cfg, after, e, account, chosen);
    }
  }

  /** A pull that has nothing to fetch. */
  lemma {:induction false} CaughtUpPull(cfg: Config, w: World, account: Word, chosen: Word, env: Env)
    requires w.log.nextBlock <= w.vault.checkpoint && 0 !in env.faults
    requires chosen in Heads(w.vault.graph.rows, account)
    ensures var p := Final(Pulled(cfg, w, account, env));
            Pulled(cfg, w, account, env).ok && p.graph == w.vault.graph && p.vaultId == w.vault.vaultId
  {
  }

  /**
   With the checkpoint at or above the height, the chosen revision a head, its stash row there and the
   stashed merge not stored: unless the publish is lost, the call puts that merge on chain, whether
   or not it is there already.
   */
  lemma {:induction false} UnseenIsPublished(cfg: Config, w: World, key: Word, account: Word, chosen: Word, env: Env)
    requires w.log.nextBlock <= w.vault.checkpoint && 0 !in env.faults && !env.fate.Lost?
    requires account in w.vault.graph.accounts && chosen in Heads(w.vault.graph.rows, account)
    requires (account, chosen) in w.vault.stash
    requires var c := MergeContent(cfg, w.vault.vaultId, account, chosen, w.vault.stash[(account, chosen)]);
             && !HasId(w.vault.graph.rows, cfg.idOf(c))
             && LandIn(StepsChain(w.log, env.others), c, env.slot).Some?
    ensures var c := MergeContent(cfg, w.vault.vaultId, account, chosen, w.vault.stash[(account, chosen)]);
            Last(ResolveRun(cfg, w, key, account, chosen, false, env)).own
            == w.own + [OwnEvent(StepsChain(w.log, env.others), c, env.slot)]
  {
    var after := w.(vault := Final(Pulled(cfg, w, account, env)));
    var m := w.vault.stash[(account, chosen)];
    CaughtUpPull(cfg, w, account, chosen, env);
    assert StashMatch(cfg, after.vault, account, chosen, Some(m)).None?;
    PublishPutsOnChain(cfg, after, account, chosen, m, env);
    var pre := Heads(w.vault.graph.rows, account);
    assert AfterPull(cfg, after, key, account, chosen, pre, Some(m), env)
        == Publish(cfg, after, account, chosen, m, true, env);
  }

  lemma {:induction false} PublishPutsOnChain(cfg: Config, w: World, account: Word, chosen: Word, m: Stash, env: Env)
    requires !env.fate.Lost?
    requires var c := MergeContent(cfg, w.vault.vaultId, account, chosen, m);
             LandIn(StepsChain(w.log, env.others), c, env.slot).Some?
    ensures var c := MergeContent(cfg, w.vault.vaultId, account, chosen, m);
            Last(Publish(cfg, w, account, chosen, m, true, env)).own
            == w.own + [OwnEvent(StepsChain(w.log, env.others), c, env.slot)]
  {
    var c := MergeContent(cfg, w.vault.vaultId, account, chosen, m);
    var landed := LandedWorld(w, w.vault, c, env);
    var ev := landed.own[|w.own|];
    FinishKeepsOwn(cfg, landed, account, chosen, ev);
  }

  lemma {:induction false} FinishKeepsOwn(cfg: Config, w: World, account: Word, chosen: Word, ev: Event)
    ensures Last(Finish(cfg, w, account, chosen, ev)).own == w.own
  {
  }

  /** So a skipped own merge of a head is published once more, and the head has two. */
  lemma {:induction false} SkippedIsPublishedAgain(cfg: Config, w: World, key: Word, account: Word, chosen: Word,
                                                   env: Env, e: Event)
    requires w.log.nextBlock <= w.vault.checkpoint && 0 !in env.faults && !env.fate.Lost?
    requires account in w.vault.graph.accounts && chosen in Heads(w.vault.graph.rows, account)
    requires (account, chosen) in w.vault.stash && e in w.own && Skips(cfg, w.vault, e)
    requires e.content == MergeContent(cfg, w.vault.vaultId, account, chosen, w.vault.stash[(account, chosen)])
    requires LandIn(StepsChain(w.log, env.others), e.content, env.slot).Some?
    ensures var own := Last(ResolveRun(cfg, w, key, account, chosen, false, env)).own;
            !OncePerHead(own) && |own| == |w.own| + 1 && own[|w.own|].content == e.content
  {
    UnseenIsPublished(cfg, w, key, account, chosen, env);
    var own := Last(ResolveRun(cfg, w, key, account, chosen, false, env)).own;
    var i :| 0 <= i < |w.own| && w.own[i] == e;
    assert own[i] == e && own[|w.own|].content == e.content;
  }
}
