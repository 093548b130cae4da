/**
 Retrying a resolve whose merge is on chain already: when one retry recovers, what keeps a world
 recoverable over whole runs, and when the account can no longer be recovered.
 */
module Recovery {
  import opened Bytes
  import opened Signing
  import opened ChainLog
  import opened Store
  import opened Pulls
  import opened Convergence
  import opened Resolve
  import opened Runs
  import opened Outcomes
  import opened PublishedMerge

  // ---------------------------------------------------------------------
  // Finding the merge after a pull
  // ---------------------------------------------------------------------

  /** The table holds the merge `ev`, if at all, as an anchored row under its canonical id. */
  ghost predicate HeldAnchored(cfg: Config, rows: seq<Row>, ev: Event) {
    forall r :: r in rows ==>
      && (r.id == cfg.idOf(ev.content) ==> r.place.Some?)
      && (r.content.account == ev.content.account && r.place == Some(PlaceOf(ev.anchor)) ==>
            r.id == cfg.idOf(ev.content))
      && (r.place.None? ==> !SameBody(r.content, ev.content))
  }

  lemma {:induction false} IngestKeepsHeldAnchored(cfg: Config, g: Graph, f: Event, l: Log, ev: Event)
    requires WellFormed(l) && f in l.events && ev in l.events
    requires HeldAnchored(cfg, g.rows, ev) && Ingest(cfg.idOf, g, f).Ok?
    ensures HeldAnchored(cfg, Ingest(cfg.idOf, g, f).value.graph.rows, ev)
  {
  }

  lemma {:induction false} HeldAnchoredIsStable(cfg: Config, l: Log, vault: Word, ev: Event)
    requires WellFormed(l) && ev in l.events
    ensures Stable(cfg, l.events, vault, -1, rows => HeldAnchored(cfg, rows, ev))
  {
    forall g: Graph, f: Event | HeldAnchored(cfg, g.rows, ev) && f in l.events && Ingest(cfg.idOf, g, f).Ok?
      ensures HeldAnchored(cfg, Ingest(cfg.idOf, g, f).value.graph.rows, ev)
    {
      IngestKeepsHeldAnchored(cfg, g, f, l, ev);
    }
  }

  lemma {:induction false} PullKeepsHeldAnchored(cfg: Config, w: World, account: Word, env: Env, ev: Event)
    requires WellFormed(w.log) && ev in w.log.events && HeldAnchored(cfg, w.vault.graph.rows, ev)
    ensures HeldAnchored(cfg, Final(Pulled(cfg, w, account, env)).graph.rows, ev)
  {
    HeldAnchoredIsStable(cfg, w.log, w.vault.vaultId, ev);
    PullPreserves(cfg, w.log.events, env.faults, Prune(w.vault, account), w.vault.checkpoint, w.log.nextBlock, [],
                  1, -1, rows => HeldAnchored(cfg, rows, ev));
    PullFollows(cfg, w, account, env);
  }

  /** Once it is known, such a merge is found by its id, with an anchor and on top of its parent. */
  lemma {:induction false} KnownIsFound(cfg: Config, rows: seq<Row>, ev: Event)
    requires HeldAnchored(cfg, rows, ev) && Known(cfg.idOf, rows, ev) && !ContentClash(cfg, rows, ev.content)
    ensures var r := FindRow(rows, ev.content.account, cfg.idOf(ev.content));
            r.Some? && r.value.place.Some? && r.value.content.parent == ev.content.parent
  {
  }

  // ---------------------------------------------------------------------
  // Children of the merge
  // ---------------------------------------------------------------------

  /** Somebody has built on the revision `id`: a stored row, or an event of the vault that is yet to be pulled. */
  ghost predicate Extended(w: World, account: Word, id: Word) {
    || HasChild(w.vault.graph.rows, account, id)
    || exists f :: f in w.log.events && f.content.vault == w.vault.vaultId && f.anchor.block > w.vault.checkpoint
                   && f.content.account == account && f.content.parent == id
  }

  lemma {:induction false} IngestKeepsUnextended(idOf: IdOf, g: Graph, f: Event, account: Word, id: Word)
    requires !HasChild(g.rows, account, id) && Ingest(idOf, g, f).Ok?
    requires f.content.account != account || f.content.parent != id
    ensures !HasChild(Ingest(idOf, g, f).value.graph.rows, account, id)
  {
  }

  lemma {:induction false} PullKeepsUnextended(cfg: Config, w: World, account: Word, env: Env, id: Word)
    requires !Extended(w, account, id)
    ensures !HasChild(Final(Pulled(cfg, w, account, env)).graph.rows, account, id)
  {
    forall g: Graph, f: Event | !HasChild(g.rows, account, id)
                                && f in w.log.events && f.content.vault == w.vault.vaultId
                                && f.anchor.block > w.vault.checkpoint && Ingest(cfg.idOf, g, f).Ok?
      ensures !HasChild(Ingest(cfg.idOf, g, f).value.graph.rows, account, id)
    {
      IngestKeepsUnextended(cfg.idOf, g, f, account, id);
    }
    PullPreserves(cfg, w.log.events, env.faults, Prune(w.vault, account), w.vault.checkpoint, w.log.nextBlock, [], 1,
                  w.vault.checkpoint, rows => !HasChild(rows, account, id));
    PullFollows(cfg, w, account, env);
  }

  /** After a successful pull an event of the vault is known that was known before or lay above the checkpoint. */
  lemma {:induction false} PulledKnows(cfg: Config, w: World, account: Word, env: Env, e: Event)
    requires WellFormed(w.log) && Pulled(cfg, w, account, env).ok
    requires e in w.log.events && e.content.vault == w.vault.vaultId && !Skips(cfg, w.vault, e)
    ensures Known(cfg.idOf, Final(Pulled(cfg, w, account, env)).graph.rows, e)
  {
    var i :| 0 <= i < |w.log.events| && w.log.events[i] == e;
    DefaultPullKnows(cfg, w.log, env.faults, Prune(w.vault, account), e);
  }

  /** After a successful pull a revision has a child exactly when it is extended, unless ids clash. */
  lemma {:induction false} ChildrenArePulled(cfg: Config, w: World, account: Word, env: Env, id: Word)
    requires Based(w) && Pulled(cfg, w, account, env).ok
    ensures var p := Final(Pulled(cfg, w, account, env));
            (HasChild(p.graph.rows, account, id) <==> Extended(w, account, id)) || Clash(cfg, w.(vault := p))
  {
    var p := Final(Pulled(cfg, w, account, env));
    PullFollows(cfg, w, account, env);
    PulledIsBased(cfg, w, account, env);
    if HasChild(w.vault.graph.rows, account, id) {
      GrowsKeepsChild(w.vault.graph.rows, p.graph.rows, account, id);
    } else if Extended(w, account, id) {
      var f :| f in w.log.events && f.content.vault == w.vault.vaultId && f.anchor.block > w.vault.checkpoint
               && f.content.account == account && f.content.parent == id;
      PulledKnows(cfg, w, account, env, f);
      KnownDemotesItsParent(cfg, p.graph.rows, w.log, f);
    } else {
      PullKeepsUnextended(cfg, w, account, env, id);
    }
  }

  // ---------------------------------------------------------------------
  // The retry
  // ---------------------------------------------------------------------

  /**
   The merge `ev` of a revision of an account is on chain, the checkpoint has not skipped it, the
   vault holds it in anchored form if at all, and a stash row for it, if there is one, is its own.
   */
  ghost predicate Tracks(cfg: Config, w: World, ev: Event) {
    var c, k := ev.content, (ev.content.account, ev.content.parent);
    && Based(w)
    && ev in w.log.events && c.vault == w.vault.vaultId && c.account in w.vault.graph.accounts
    && !Skips(cfg, w.vault, ev)
    && HeldAnchored(cfg, w.vault.graph.rows, ev)
    && (k in w.vault.stash ==> MergeContent(cfg, w.vault.vaultId, c.account, c.parent, w.vault.stash[k]) == c)
  }

  /** ... and the stash row is there. */
  ghost predicate Recoverable(cfg: Config, w: World, account: Word, chosen: Word, ev: Event) {
    && Tracks(cfg, w, ev) && ev.content.account == account && ev.content.parent == chosen
    && (account, chosen) in w.vault.stash
  }

  /** The vault `p` with the account thawed onto `id` and the stash row gone, and nothing else changed. */
  function Settled(p: VaultState, account: Word, chosen: Word, id: Word): VaultState {
    ClearStash(p.(graph := p.graph.(accounts := p.graph.accounts[account := Identity(id, false)])), account, chosen)
  }

  /** How the call ends after a pull that brought the merge in. */
  lemma {:induction false} FoundDecides(cfg: Config, w: World, key: Word, account: Word, chosen: Word, pre: set<Word>,
                                        m: Stash, env: Env)
    requires account in w.vault.graph.accounts
    requires StashMatch(cfg, w.vault, account, chosen, Some(m)).Some?
    ensures var r := AfterPull(cfg, w, key, account, chosen, pre, Some(m), env);
            var id := MergeId(cfg, w.vault.vaultId, account, chosen, m);
            if HasChild(w.vault.graph.rows, account, id) then r == Run([w], StoreFailed(NotAHead))
            else
              && r.outcome == AlreadyOnChain(id, StashMatch(cfg, w.vault, account, chosen, Some(m)).value)
              && Last(r) == w.(vault := Settled(w.vault, account, chosen, id))
  {
  }

  lemma {:induction false} NoClashNoContentClash(cfg: Config, w: World, ev: Event)
    requires !Clash(cfg, w) && ev in w.log.events
    ensures !ContentClash(cfg, w.vault.graph.rows, ev.content)
  {
  }

  /**
   Recovery. From a recoverable world a retry with any device key leaves the chain alone, and, when
   its pull succeeds, returns the merge as already on chain, thaws the account onto it and removes
   the stash row exactly when nobody has built on the merge yet. If somebody has, the call fails with
   the store's not-a-head error and thaws nothing. Whether the chosen head is still a head, what the
   prunes drop and which other heads arrived does not matter. The alternative is a clash of
   canonical ids.
   */
  lemma {:induction false} RetryRecovers(cfg: Config, w: World, key: Word, account: Word, chosen: Word, env: Env,
                                         ev: Event)
    requires Recoverable(cfg, w, account, chosen, ev)
    requires Pulled(cfg, w, account, env).ok
    ensures var r, p := ResolveRun(cfg, w, key, account, chosen, false, env), Final(Pulled(cfg, w, account, env));
            || Clash(cfg, w.(vault := p))
            || (if Extended(w, account, cfg.idOf(ev.content))
                then r.outcome == StoreFailed(NotAHead) && Last(r) == w.(vault := p)
                else
                  && r.outcome.AlreadyOnChain? && r.outcome.id == cfg.idOf(ev.content)
                  && (exists row :: row in p.graph.rows && row.id == r.outcome.id && row.place == Some(r.outcome.place)
                                    && row.content.account == account && row.content.parent == chosen)
                  && Last(r) == w.(vault := Settled(p, account, chosen, r.outcome.id)))
  {
    var p := Final(Pulled(cfg, w, account, env));
    var after := w.(vault := p);
    var m := w.vault.stash[(account, chosen)];
    PullFollows(cfg, w, account, env);
    PulledKnows(cfg, w, account, env, ev);
    if !Clash(cfg, after) {
      NoClashNoContentClash(cfg, after, ev);
      PullKeepsHeldAnchored(cfg, w, account, env, ev);
      KnownIsFound(cfg, p.graph.rows, ev);
      ChildrenArePulled(cfg, w, account, env, cfg.idOf(ev.content));
      FoundDecides(cfg, after, key, account, chosen, Heads(w.vault.graph.rows, account), m, env);
    }
  }

  /**
   Without adapter faults, places that overflow or ids shared between accounts, the call's own pull
   succeeds exactly when every event of the vault above the checkpoint carries a canonical device id.
   */
  lemma {:induction false} QuietPullSucceeds(cfg: Config, w: World, account: Word, env: Env)
    requires env.faults == {} && w.log.nextBlock <= I64_MAX
    requires forall e :: e in w.log.events ==> Storable(e.anchor) && e.anchor.block <= w.log.nextBlock
    requires IdsBindAccounts(cfg.idOf, w.vault.graph, w.log.events)
    ensures Pulled(cfg, w, account, env).ok
            <==> CanonicalWindow(cfg, w.log.events, w.vault.vaultId, w.vault.checkpoint, w.log.nextBlock)
  {
    if w.vault.checkpoint < w.log.nextBlock {
      PullSucceedsIff(cfg, w.log.events, Prune(w.vault, account), w.vault.checkpoint, w.log.nextBlock, [], 1);
    }
  }

  /** The other half: a merge that the checkpoint has skipped, in every copy, is never found again. */
  lemma {:induction false} SkippedMergeIsNotRecovered(cfg: Config, w: World, key: Word, account: Word, chosen: Word,
                                                      env: Env)
    requires (account, chosen) in w.vault.stash
    requires var id := MergeId(cfg, w.vault.vaultId, account, chosen, w.vault.stash[(account, chosen)]);
             && !HasId(w.vault.graph.rows, id)
             && forall e :: e in w.log.events && e.content.vault == w.vault.vaultId && cfg.idOf(e.content) == id
                  ==> e.anchor.block <= w.vault.checkpoint
    ensures !ResolveRun(cfg, w, key, account, chosen, false, env).outcome.AlreadyOnChain?
  {
    var id := MergeId(cfg, w.vault.vaultId, account, chosen, w.vault.stash[(account, chosen)]);
    forall g: Graph, f: Event | !HasId(g.rows, id) && f in w.log.events && f.content.vault == w.vault.vaultId
                                && f.anchor.block > w.vault.checkpoint && Ingest(cfg.idOf, g, f).Ok?
      ensures !HasId(Ingest(cfg.idOf, g, f).value.graph.rows, id)
    {
      IngestKeepsAbsent(cfg.idOf, g, f, id);
    }
    PullPreserves(cfg, w.log.events, env.faults, Prune(w.vault, account), w.vault.checkpoint, w.log.nextBlock, [], 1,
                  w.vault.checkpoint, rows => !HasId(rows, id));
    PullFollows(cfg, w, account, env);
    NotFoundIsNotRecovered(cfg, w.(vault := Final(Pulled(cfg, w, account, env))), key, account, chosen,
                           Heads(w.vault.graph.rows, account), w.vault.stash[(account, chosen)], env);
  }

  lemma {:induction false} IngestKeepsAbsent(idOf: IdOf, g: Graph, f: Event, id: Word)
    requires !HasId(g.rows, id) && Ingest(idOf, g, f).Ok? && idOf(f.content) != id
    ensures !HasId(Ingest(idOf, g, f).value.graph.rows, id)
  {
  }

  lemma {:induction false} NotFoundIsNotRecovered(cfg: Config, w: World, key: Word, account: Word, chosen: Word,
                                                  pre: set<Word>, m: Stash, env: Env)
    requires !HasId(w.vault.graph.rows, MergeId(cfg, w.vault.vaultId, account, chosen, m))
    ensures !AfterPull(cfg, w, key, account, chosen, pre, Some(m), env).outcome.AlreadyOnChain?
  {
  }
}
