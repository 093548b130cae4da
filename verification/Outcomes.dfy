/** What a single resolve call does to vault and chain, outcome by outcome. */
module Outcomes {
  import opened Bytes
  import opened Signing
  import opened ChainLog
  import opened Store
  import opened Pulls
  import opened Resolve
  import opened Runs

  /** The vault as the call's own pull leaves it. */
  function Pulled(cfg: Config, w: World, account: Word, env: Env): (t: Trace)
    ensures t.states != []
  {
    PullTrace(cfg, w.log, env.faults, Prune(w.vault, account), None, None)
  }

  lemma {:induction false} PullFollows(cfg: Config, w: World, account: Word, env: Env)
    ensures forall x :: x in Pulled(cfg, w, account, env).states ==> Follows(w.vault, x)
    ensures Pulled(cfg, w, account, env).states != []
    ensures Final(Pulled(cfg, w, account, env)) in Pulled(cfg, w, account, env).states
  {
    var pruned := Prune(w.vault, account);
    PullLoopCovers(cfg, w.log.events, env.faults, pruned, pruned.checkpoint, w.log.nextBlock, [], 1, []);
    PruneFollows(w.vault, account);
    forall x | x in Pulled(cfg, w, account, env).states ensures Follows(w.vault, x) {
      FollowsTransitive(w.vault, pruned, x);
    }
  }

  // ---------------------------------------------------------------------
  // The stash decides the merge
  // ---------------------------------------------------------------------

  /** The revision id that an outcome reports. */
  function ReportedId(o: Outcome): Option<Word> {
    match o
    case DryRun(id) => Some(id)
    case Published(id, _) => Some(id)
    case AlreadyOnChain(id, _) => Some(id)
    case _ => None
  }

  lemma {:induction false} StashDecidesAfterPull(cfg: Config, w: World, key: Word, key': Word, account: Word,
                                                 chosen: Word, pre: set<Word>, m: Stash, env: Env)
    ensures var r := AfterPull(cfg, w, key, account, chosen, pre, Some(m), env);
            && r == AfterPull(cfg, w, key', account, chosen, pre, Some(m), env)
            && (ReportedId(r.outcome).Some? ==>
                  ReportedId(r.outcome).value == MergeId(cfg, w.vault.vaultId, account, chosen, m))
  {
  }

  /**
   With a stash row present, the supplied device key makes no difference to anything the call does,
   and every id it reports is the one recomputed from the stash, dry run or not.
   */
  lemma {:induction false} StashDecidesTheMerge(cfg: Config, w: World, key: Word, key': Word, account: Word,
                                                chosen: Word, dryRun: bool, env: Env)
    requires (account, chosen) in w.vault.stash
    ensures var r := ResolveRun(cfg, w, key, account, chosen, dryRun, env);
            && r == ResolveRun(cfg, w, key', account, chosen, dryRun, env)
            && (ReportedId(r.outcome).Some? ==>
                  ReportedId(r.outcome).value == MergeId(cfg, w.vault.vaultId, account, chosen,
                                                         w.vault.stash[(account, chosen)]))
  {
    PullFollows(cfg, w, account, env);
    var after := w.(vault := Final(Pulled(cfg, w, account, env)));
    StashDecidesAfterPull(cfg, after, key, key', account, chosen, Heads(w.vault.graph.rows, account),
                          w.vault.stash[(account, chosen)], env);
  }

  lemma {:induction false} FirstRowKept(rows: seq<Row>, rows': seq<Row>, account: Word, id: Word)
    requires Grows(rows, rows') && FindRow(rows, account, id).Some?
    ensures FindRow(rows', account, id).Some?
    ensures FindRow(rows', account, id).value.content == FindRow(rows, account, id).value.content
  {
    assert rows'[0].content == rows[0].content;
    if !(rows[0].content.account == account && rows[0].id == id) {
      forall i | 0 <= i < |rows| - 1
        ensures rows'[1..][i].id == rows[1..][i].id && rows'[1..][i].content == rows[1..][i].content
                && (rows[1..][i].place.Some? ==> rows'[1..][i].place == rows[1..][i].place)
      {
        assert rows'[i + 1].id == rows[i + 1].id;
      }
      FirstRowKept(rows[1..], rows'[1..], account, id);
    }
  }

  /** What a call publishes when there is no stash row. */
  function FreshContent(cfg: Config, w: World, key: Word, account: Word, chosen: Word, env: Env): Content
    requires FindRow(w.vault.graph.rows, account, chosen).Some? && env.sealed.Some?
  {
    Content(w.vault.vaultId, account, chosen, cfg.publicKey(key),
            FindRow(w.vault.graph.rows, account, chosen).value.content.schema, env.sealed.value.payload)
  }

  /**
   A dry run commits nothing. The id it plans is the one a following real run publishes exactly
   when a stash row is present, or both runs sign with the same key and re-seal to the same bytes
   (given that the digest does not confuse the two contents).
   */
  lemma {:induction false} DryRunPlan(cfg: Config, w: World, account: Word, chosen: Word, key: Word, env: Env,
                                      key': Word, env': Env)
    requires ResolveRun(cfg, w, key, account, chosen, true, env).outcome.DryRun?
    requires ResolveRun(cfg, w, key', account, chosen, false, env').outcome.Published?
    requires (account, chosen) !in w.vault.stash ==>
               var a := FreshContent(cfg, w, key, account, chosen, env);
               var b := FreshContent(cfg, w, key', account, chosen, env');
               cfg.idOf(a) == cfg.idOf(b) ==> a == b
    ensures ResolveRun(cfg, w, key, account, chosen, true, env).states == [w]
    ensures ResolveRun(cfg, w, key, account, chosen, true, env).outcome.planned
            == ResolveRun(cfg, w, key', account, chosen, false, env').outcome.id
            <==> (account, chosen) in w.vault.stash
                 || (cfg.publicKey(key) == cfg.publicKey(key') && env.sealed.value.payload == env'.sealed.value.payload)
  {
    if (account, chosen) in w.vault.stash {
      StashDecidesTheMerge(cfg, w, key, key, account, chosen, true, env);
      StashDecidesTheMerge(cfg, w, key', key', account, chosen, false, env');
    } else {
      PublishedFresh(cfg, w, key', account, chosen, env');
      assert ResolveRun(cfg, w, key, account, chosen, true, env).outcome.planned
          == cfg.idOf(FreshContent(cfg, w, key, account, chosen, env));
    }
  }

  /** Without a stash row, a published merge has the content of the call's own key and seal. */
  lemma {:induction false} PublishedFresh(cfg: Config, w: World, key: Word, account: Word, chosen: Word, env: Env)
    requires (account, chosen) !in w.vault.stash
    requires FindRow(w.vault.graph.rows, account, chosen).Some?
    requires ResolveRun(cfg, w, key, account, chosen, false, env).outcome.Published?
    ensures env.sealed.Some?
    ensures ResolveRun(cfg, w, key, account, chosen, false, env).outcome.id
            == cfg.idOf(FreshContent(cfg, w, key, account, chosen, env))
  {
    PullFollows(cfg, w, account, env);
    FirstRowKept(w.vault.graph.rows, Final(Pulled(cfg, w, account, env)).graph.rows, account, chosen);
  }

  // ---------------------------------------------------------------------
  // Refusals
  // ---------------------------------------------------------------------

  /** No account is thawed on the way from one vault to the other. */
  ghost predicate ThawsNothing(s: VaultState, t: VaultState) {
    forall a :: a in s.graph.accounts && s.graph.accounts[a].frozen ==>
        a in t.graph.accounts && t.graph.accounts[a].frozen
  }

  predicate Refused(o: Outcome) {
    o.AccountMissing? || o.ChainMoved? || o.NotCurrentHead?
  }

  lemma {:induction false} RefusalStopsAfterPull(cfg: Config, w: World, key: Word, account: Word, chosen: Word,
                                                 pre: set<Word>, stash: Option<Stash>, env: Env)
    ensures var r := AfterPull(cfg, w, key, account, chosen, pre, stash, env);
            Refused(r.outcome) ==> r.states == [w]
  {
  }

  /** A refused call, at every point of it, has left the chain alone and thawed nothing. */
  lemma {:induction false} RefusalsAreHarmless(cfg: Config, w: World, key: Word, account: Word, chosen: Word,
                                               dryRun: bool, env: Env)
    requires Refused(ResolveRun(cfg, w, key, account, chosen, dryRun, env).outcome)
    ensures forall x :: x in ResolveRun(cfg, w, key, account, chosen, dryRun, env).states ==>
              x.log == w.log && x.own == w.own && ThawsNothing(w.vault, x.vault)
  {
    if account in w.vault.graph.accounts && !dryRun {
      var t := Pulled(cfg, w, account, env);
      var after := w.(vault := Final(t));
      PullFollows(cfg, w, account, env);
      RefusalStopsAfterPull(cfg, after, key, account, chosen, Heads(w.vault.graph.rows, account),
                            Stashed(w.vault, account, chosen), env);
      forall x | x in ResolveRun(cfg, w, key, account, chosen, dryRun, env).states
        ensures x.log == w.log && x.own == w.own && ThawsNothing(w.vault, x.vault)
      {
        if x in InWorld(w, t.states) {
          var i :| 0 <= i < |t.states| && x == w.(vault := t.states[i]);
          assert Follows(w.vault, t.states[i]);
        } else {
          assert x == w || x == after;
        }
      }
    }
  }

  // ---------------------------------------------------------------------
  // What may be thawed
  // ---------------------------------------------------------------------

  /** The row `r` is an anchored child of `chosen` in the account, or its id clashes with that of such a merge. */
  ghost predicate StandsForMerge(cfg: Config, r: Row, account: Word, chosen: Word, c: Content) {
    && r.content.account == c.account == account && c.parent == chosen
    && r.id == cfg.idOf(c)
    && (r.content.parent != chosen || r.place.Some?)
  }

  ghost predicate ThawedOntoMerge(cfg: Config, x: VaultState, account: Word, chosen: Word) {
    && account in x.graph.accounts
    && x.graph.accounts[account].head in Heads(x.graph.rows, account)
    && exists r, c ::
         r in x.graph.rows && r.id == x.graph.accounts[account].head && StandsForMerge(cfg, r, account, chosen, c)
  }

  /** Frozen accounts of `s` stay frozen in `x`, except that `account` may be thawed onto a merge of `chosen`. */
  ghost predicate ThawsCarefully(cfg: Config, s: VaultState, x: VaultState, account: Word, chosen: Word) {
    forall a :: a in s.graph.accounts && s.graph.accounts[a].frozen ==>
      || (a in x.graph.accounts && x.graph.accounts[a].frozen)
      || (a == account && ThawedOntoMerge(cfg, x, account, chosen))
  }

  lemma {:induction false} ClearFrozenIsCareful(cfg: Config, s: VaultState, account: Word, chosen: Word, c: Content)
    requires ClearFrozen(s, account, cfg.idOf(c)).Ok? && c.account == account && c.parent == chosen
    requires var r := FindRow(s.graph.rows, account, cfg.idOf(c));
             r.Some? && r.value.content.parent == chosen ==> r.value.place.Some?
    ensures ThawsCarefully(cfg, s, ClearFrozen(s, account, cfg.idOf(c)).value, account, chosen)
    ensures ThawedOntoMerge(cfg, ClearFrozen(s, account, cfg.idOf(c)).value, account, chosen)
  {
    var r := FindRow(s.graph.rows, account, cfg.idOf(c)).value;
    assert StandsForMerge(cfg, r, account, chosen, c);
  }

  /** Ingesting a merge on top of a head: whatever child the head then has is anchored. */
  lemma {:induction false} ChildIsAnchored(cfg: Config, g: Graph, account: Word, chosen: Word, ev: Event, r: Row)
    requires chosen in Heads(g.rows, account) && Ingest(cfg.idOf, g, ev).Ok?
    requires r in Ingest(cfg.idOf, g, ev).value.graph.rows && r.content.account == account && r.content.parent == chosen
    ensures r.place.Some?
  {
  }

  /** Stash, checkpoint and chain do not matter to the freeze flags. */
  lemma {:induction false} CarefulLater(cfg: Config, s: VaultState, x: VaultState, y: VaultState, account: Word,
                                        chosen: Word)
    requires ThawsCarefully(cfg, s, x, account, chosen) && y.graph == x.graph
    ensures ThawsCarefully(cfg, s, y, account, chosen)
  {
  }

  lemma {:induction false} CarefulAfter(cfg: Config, s: VaultState, t: VaultState, x: VaultState, account: Word,
                                        chosen: Word)
    requires ThawsNothing(s, t) && ThawsCarefully(cfg, t, x, account, chosen)
    ensures ThawsCarefully(cfg, s, x, account, chosen)
  {
  }

  /** Steps 10 and 11, with `i` what the ingest gives. */
  lemma {:induction false} IngestedIsCareful(cfg: Config, s: VaultState, account: Word, chosen: Word, ev: Event,
                                             i: Ingestion)
    requires chosen in Heads(s.graph.rows, account) && ev.content.account == account && ev.content.parent == chosen
    requires Ingest(cfg.idOf, s.graph, ev) == Ok(i)
    ensures ThawsCarefully(cfg, s, s.(graph := i.graph), account, chosen)
    ensures var r := ClearFrozen(s.(graph := i.graph), account, cfg.idOf(ev.content));
            r.Ok? ==> ThawsCarefully(cfg, s, r.value, account, chosen)
  {
    var ingested := s.(graph := i.graph);
    IngestFollows(cfg, s, ev);
    var r := FindRow(i.graph.rows, account, cfg.idOf(ev.content));
    if ClearFrozen(ingested, account, cfg.idOf(ev.content)).Ok? {
      if r.value.content.parent == chosen {
        ChildIsAnchored(cfg, s.graph, account, chosen, ev, r.value);
      }
      ClearFrozenIsCareful(cfg, ingested, account, chosen, ev.content);
      CarefulAfter(cfg, s, ingested, ClearFrozen(ingested, account, cfg.idOf(ev.content)).value, account, chosen);
    }
  }

  lemma {:induction false} FinishIsCareful(cfg: Config, w: World, account: Word, chosen: Word, ev: Event)
    requires chosen in Heads(w.vault.graph.rows, account) && ev.content.account == account
    requires ev.content.parent == chosen
    ensures forall x :: x in Finish(cfg, w, account, chosen, ev).states ==>
              ThawsCarefully(cfg, w.vault, x.vault, account, chosen)
  {
    var step := Ingest(cfg.idOf, w.vault.graph, ev);
    if step.Ok? {
      IngestedIsCareful(cfg, w.vault, account, chosen, ev, step.value);
      var r := ClearFrozen(w.vault.(graph := step.value.graph), account, cfg.idOf(ev.content));
      if r.Ok? {
        forall y: VaultState | y.graph == r.value.graph ensures ThawsCarefully(cfg, w.vault, y, account, chosen) {
          CarefulLater(cfg, w.vault, r.value, y, account, chosen);
        }
      }
    }
  }

  lemma {:induction false} PublishIsCareful(cfg: Config, w: World, account: Word, chosen: Word, m: Stash,
                                            stashPresent: bool, env: Env)
    requires chosen in Heads(w.vault.graph.rows, account)
    ensures forall x :: x in Publish(cfg, w, account, chosen, m, stashPresent, env).states ==>
              ThawsCarefully(cfg, w.vault, x.vault, account, chosen)
  {
    var stashed := w.(vault := if stashPresent then w.vault else StashMerge(w.vault, account, chosen, m));
    var met := stashed.(log := StepsChain(w.log, env.others));
    var content := MergeContent(cfg, w.vault.vaultId, account, chosen, m);
    var landed := LandIn(met.log, content, env.slot);
    assert ThawsNothing(w.vault, stashed.vault);
    if env.fate.Confirmed? && landed.Some? {
      var ev := OwnEvent(met.log, content, env.slot);
      var published := World(met.vault, landed.value, w.own + [ev]);
      FinishIsCareful(cfg, published, account, chosen, ev);
      forall x | x in Finish(cfg, published, account, chosen, ev).states
        ensures ThawsCarefully(cfg, w.vault, x.vault, account, chosen)
      {
        CarefulAfter(cfg, w.vault, stashed.vault, x.vault, account, chosen);
      }
    }
  }

  lemma {:induction false} AfterPullIsCareful(cfg: Config, w: World, key: Word, account: Word, chosen: Word,
                                              pre: set<Word>, stash: Option<Stash>, env: Env)
    ensures forall x :: x in AfterPull(cfg, w, key, account, chosen, pre, stash, env).states ==>
              ThawsCarefully(cfg, w.vault, x.vault, account, chosen)
  {
    var s := w.vault;
    if StashMatch(cfg, s, account, chosen, stash).Some? {
      var c := MergeContent(cfg, s.vaultId, account, chosen, stash.value);
      if ClearFrozen(s, account, cfg.idOf(c)).Ok? {
        ClearFrozenIsCareful(cfg, s, account, chosen, c);
        var thawed := ClearFrozen(s, account, cfg.idOf(c)).value;
        CarefulLater(cfg, s, thawed, ClearStash(thawed, account, chosen), account, chosen);
      }
    } else if chosen in Heads(s.graph.rows, account) {
      var m := BuildMerge(s.graph.rows, key, account, chosen, stash, env.sealed);
      if m.Ok? {
        PublishIsCareful(cfg, w, account, chosen, m.value, stash.Some?, env);
      }
    }
  }

  /**
   In every call, whatever its outcome and at every point of it: no account but the call's own is
   thawed, and that one only onto a head that is an anchored merge of the chosen revision (or
   whose id clashes with such a merge's).
   */
  lemma {:induction false} EveryThawIsOntoTheMerge(cfg: Config, w: World, key: Word, account: Word, chosen: Word,
                                                   dryRun: bool, env: Env)
    ensures forall x :: x in ResolveRun(cfg, w, key, account, chosen, dryRun, env).states ==>
              ThawsCarefully(cfg, w.vault, x.vault, account, chosen)
  {
    if account in w.vault.graph.accounts && !dryRun {
      var t := Pulled(cfg, w, account, env);
      PullFollows(cfg, w, account, env);
      var after := w.(vault := Final(t));
      var pre, stash := Heads(w.vault.graph.rows, account), Stashed(w.vault, account, chosen);
      AfterPullIsCareful(cfg, after, key, account, chosen, pre, stash, env);
      forall x | x in ResolveRun(cfg, w, key, account, chosen, dryRun, env).states
        ensures ThawsCarefully(cfg, w.vault, x.vault, account, chosen)
      {
        if x in AfterPull(cfg, after, key, account, chosen, pre, stash, env).states {
          CarefulAfter(cfg, w.vault, after.vault, x.vault, account, chosen);
        }
        if x in InWorld(w, t.states) {
          var i :| 0 <= i < |t.states| && x == w.(vault := t.states[i]);
          assert Follows(w.vault, t.states[i]);
        }
      }
    }
  }
}
