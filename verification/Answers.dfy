/**
 What a resolve answers, read off the vault before and after its own pull: one lemma for each way that
 a call can end, and together all of them.
 */
module ResolveAnswers {
  import opened Bytes
  import opened Signing
  import opened ChainLog
  import opened Store
  import opened Pulls
  import opened Resolve
  import opened Runs
  import opened Outcomes
  import opened PublishedMerge
  import opened Recovery
  import opened Retries
  import opened Kills

  /** The vault after the call's own pull. */
  function After(cfg: Config, w: World, account: Word, env: Env): World {
    w.(vault := Final(Pulled(cfg, w, account, env)))
  }

  /** The states up to and including the one after the pull, where it goes on to the checks. */
  function Until(cfg: Config, w: World, account: Word, env: Env): seq<World> {
    [w] + InWorld(w, Pulled(cfg, w, account, env).states) + [After(cfg, w, account, env)]
  }

  /** The stashed merge, read before the pull, is stored with an anchor after it. */
  ghost predicate MergeFound(cfg: Config, w: World, account: Word, chosen: Word, env: Env) {
    (account, chosen) in w.vault.stash
    && var m := w.vault.stash[(account, chosen)];
       var c := Content(w.vault.vaultId, account, chosen, cfg.publicKey(m.seed), m.schema, m.payload);
       var r := FindRow(After(cfg, w, account, env).vault.graph.rows, account, cfg.idOf(c));
       r.Some? && r.value.place.Some?
  }

  /** The account has a head after the pull that it did not have before. */
  ghost predicate HasNewHead(cfg: Config, w: World, account: Word, env: Env) {
    exists h :: h in Heads(After(cfg, w, account, env).vault.graph.rows, account)
             && h !in Heads(w.vault.graph.rows, account)
  }

  /** An account that is not there, in a live call or a dry run. */
  lemma {:induction false} UnknownAccount(cfg: Config, w: World, key: Word, account: Word, chosen: Word, dryRun: bool,
                                          env: Env)
    ensures ResolveRun(cfg, w, key, account, chosen, dryRun, env).outcome.AccountMissing?
            <==> account !in w.vault.graph.accounts
    ensures account !in w.vault.graph.accounts ==> ResolveRun(cfg, w, key, account, chosen, dryRun, env).states == [w]
  {
  }

  /** A dry run: the chosen revision must be a head and openable unless stashed; then the id is that of the merge. */
  lemma {:induction false} DryAnswer(cfg: Config, w: World, key: Word, account: Word, chosen: Word, env: Env)
    requires account in w.vault.graph.accounts
    ensures var r := ResolveRun(cfg, w, key, account, chosen, true, env);
            var heads, k := Heads(w.vault.graph.rows, account), (account, chosen);
            && r.states == [w]
            && (chosen !in heads ==> r.outcome == NotCurrentHead(heads))
            && (chosen in heads && k !in w.vault.stash && env.sealed.None? ==>
                  r.outcome == StoreFailed(AuthenticationFailed))
            && (chosen in heads && (k in w.vault.stash || env.sealed.Some?) ==>
                  exists m :: IsMerge(w.vault, w.vault, key, account, chosen, env, m)
                              && r.outcome == DryRun(cfg.idOf(Content(w.vault.vaultId, account, chosen,
                                                                     cfg.publicKey(m.seed), m.schema, m.payload))))
  {
    if chosen in Heads(w.vault.graph.rows, account) && ((account, chosen) in w.vault.stash || env.sealed.Some?) {
      var m := BuildMerge(w.vault.graph.rows, key, account, chosen, Stashed(w.vault, account, chosen),
                          env.sealed).value;
      MergeIsBuilt(w.vault, w.vault, key, account, chosen, env);
      assert IsMerge(w.vault, w.vault, key, account, chosen, env, m);
    }
  }

  /**
   What is published: the stash row as it was before the pull; without one, the call's key and the fresh
   seal under the schema of the chosen row.
   */
  ghost predicate IsMerge(before: VaultState, after: VaultState, key: Word, account: Word, chosen: Word, env: Env,
                          m: Stash) {
    if (account, chosen) in before.stash then m == before.stash[(account, chosen)]
    else
      && env.sealed.Some? && m.seed == key && m.nonce == env.sealed.value.nonce && m.payload == env.sealed.value.payload
      && exists r :: FindRow(after.graph.rows, account, chosen) == Some(r) && m.schema == r.content.schema
  }

  lemma {:induction false} MergeIsBuilt(before: VaultState, after: VaultState, key: Word, account: Word, chosen: Word,
                                        env: Env)
    requires chosen in Heads(after.graph.rows, account)
    ensures var built := BuildMerge(after.graph.rows, key, account, chosen, Stashed(before, account, chosen),
                                    env.sealed);
            match built
            case Ok(m) => IsMerge(before, after, key, account, chosen, env, m)
            case Err(e) => e == AuthenticationFailed && (account, chosen) !in before.stash && env.sealed.None?
  {
    var r := FindRow(after.graph.rows, account, chosen);
    HeadsAreChildless(after.graph.rows, account, chosen);
  }

  /** A failed pull ends the call, with what it has committed. */
  lemma {:induction false} FailedPull(cfg: Config, w: World, key: Word, account: Word, chosen: Word, env: Env)
    requires account in w.vault.graph.accounts && !Pulled(cfg, w, account, env).ok
    ensures ResolveRun(cfg, w, key, account, chosen, false, env)
            == Run([w] + InWorld(w, Pulled(cfg, w, account, env).states), ChainFailed)
  {
  }

  /** The stashed merge is found: it is on chain already, or, if it has a child, not to be thawed onto. */
  lemma {:induction false} FoundAnswer(cfg: Config, w: World, key: Word, account: Word, chosen: Word, env: Env)
    requires account in w.vault.graph.accounts && Pulled(cfg, w, account, env).ok
    requires MergeFound(cfg, w, account, chosen, env)
    ensures var r := ResolveRun(cfg, w, key, account, chosen, false, env);
            var m, rows := w.vault.stash[(account, chosen)], After(cfg, w, account, env).vault.graph.rows;
            var id := cfg.idOf(Content(w.vault.vaultId, account, chosen, cfg.publicKey(m.seed), m.schema, m.payload));
            && (if exists x :: x in rows && x.content.account == account && x.content.parent == id
                then r.outcome == StoreFailed(NotAHead)
                else FindRow(rows, account, id).Some? && FindRow(rows, account, id).value.place.Some?
                     && r.outcome == AlreadyOnChain(id, FindRow(rows, account, id).value.place.value))
            && forall x :: x in r.states ==> x.log == w.log && x.own == w.own
  {
    PullFollows(cfg, w, account, env);
    var after, m := After(cfg, w, account, env), w.vault.stash[(account, chosen)];
    FoundDecides(cfg, after, key, account, chosen, Heads(w.vault.graph.rows, account), m, env);
    forall x | x in ResolveRun(cfg, w, key, account, chosen, false, env).states
      ensures x.log == w.log && x.own == w.own
    {
      LiveStates(cfg, w, key, account, chosen, env, x);
    }
  }

  /**
   The chain moved: some head of the account is new. The call reports both head sets and does nothing
   after its pull, whether or not the chosen revision is still a head.
   */
  lemma {:induction false} MovedChainIsRefused(cfg: Config, w: World, key: Word, account: Word, chosen: Word, env: Env)
    requires account in w.vault.graph.accounts && Pulled(cfg, w, account, env).ok
    requires !MergeFound(cfg, w, account, chosen, env) && HasNewHead(cfg, w, account, env)
    ensures ResolveRun(cfg, w, key, account, chosen, false, env)
            == Run(Until(cfg, w, account, env),
                   ChainMoved(Heads(w.vault.graph.rows, account),
                              Heads(After(cfg, w, account, env).vault.graph.rows, account)))
  {
    PullFollows(cfg, w, account, env);
  }

  /** No head is new, and the chosen revision is none of them. */
  lemma {:induction false} DemotedIsRefused(cfg: Config, w: World, key: Word, account: Word, chosen: Word, env: Env)
    requires account in w.vault.graph.accounts && Pulled(cfg, w, account, env).ok
    requires !MergeFound(cfg, w, account, chosen, env) && !HasNewHead(cfg, w, account, env)
    requires chosen !in Heads(After(cfg, w, account, env).vault.graph.rows, account)
    ensures ResolveRun(cfg, w, key, account, chosen, false, env)
            == Run(Until(cfg, w, account, env),
                   NotCurrentHead(Heads(After(cfg, w, account, env).vault.graph.rows, account)))
  {
    PullFollows(cfg, w, account, env);
  }

  /** The chosen revision is a head, but there is no stash row and it cannot be opened. */
  lemma {:induction false} UnopenableIsRefused(cfg: Config, w: World, key: Word, account: Word, chosen: Word, env: Env)
    requires account in w.vault.graph.accounts && Pulled(cfg, w, account, env).ok && !HasNewHead(cfg, w, account, env)
    requires chosen in Heads(After(cfg, w, account, env).vault.graph.rows, account)
    requires (account, chosen) !in w.vault.stash && env.sealed.None?
    ensures ResolveRun(cfg, w, key, account, chosen, false, env)
            == Run(Until(cfg, w, account, env), StoreFailed(AuthenticationFailed))
  {
    MergeIsBuilt(w.vault, After(cfg, w, account, env).vault, key, account, chosen, env);
  }

  /**
   Otherwise the call goes on: a stash row is there, the one of before the pull or a fresh one, and it is
   there before anything is put on chain. Then others publish, and the merge is lost, or lands and
   the call fails, or lands and is finished off.
   */
  lemma {:induction false} GoesOn(cfg: Config, w: World, key: Word, account: Word, chosen: Word, env: Env)
    returns (m: Stash)
    requires account in w.vault.graph.accounts && Pulled(cfg, w, account, env).ok
    requires !MergeFound(cfg, w, account, chosen, env) && !HasNewHead(cfg, w, account, env)
    requires chosen in Heads(After(cfg, w, account, env).vault.graph.rows, account)
    requires (account, chosen) in w.vault.stash || env.sealed.Some?
    ensures var p := After(cfg, w, account, env).vault;
            var r := ResolveRun(cfg, w, key, account, chosen, false, env);
            var stashed := p.(stash := p.stash[(account, chosen) := m]);
            var c := Content(w.vault.vaultId, account, chosen, cfg.publicKey(m.seed), m.schema, m.payload);
            var met := StepsChain(w.log, env.others);
            var landed := LandIn(met, c, env.slot);
            && IsMerge(w.vault, p, key, account, chosen, env, m)
            && Until(cfg, w, account, env) + [w.(vault := stashed), World(stashed, met, w.own)] <= r.states
            && (env.fate.Lost? || landed.None? ==>
                  r.outcome == ChainFailed && Last(r) == World(stashed, met, w.own))
            && (!env.fate.Lost? && landed.Some? ==>
                  var here := World(stashed, landed.value, w.own + [OwnEvent(met, c, env.slot)]);
                  && here in r.states && Last(r).own == here.own && Last(r).log == here.log
                  && (env.fate.LandedUnreported? ==> r.outcome == ChainFailed && Last(r) == here)
                  && (env.fate.Confirmed? ==> r.outcome.Published? || r.outcome.StoreFailed?))
  {
    var after := After(cfg, w, account, env);
    m := GoesOnToPublish(cfg, w, key, account, chosen, env);
    var stashPresent := (account, chosen) in w.vault.stash;
    var v := if stashPresent then after.vault else StashMerge(after.vault, account, chosen, m);
    PublishGoesOn(cfg, after, account, chosen, m, stashPresent, env);
    StashRowStays(cfg, w, account, chosen, env, m);
    assert v == after.vault.(stash := after.vault.stash[(account, chosen) := m]);
    JoinedStartsWith([w] + InWorld(w, Pulled(cfg, w, account, env).states),
                     Publish(cfg, after, account, chosen, m, stashPresent, env),
                     [after, w.(vault := v), World(v, StepsChain(w.log, env.others), w.own)]);
  }

  lemma {:induction false} JoinedStartsWith(before: seq<World>, rest: Run, front: seq<World>)
    requires |rest.states| >= |front| > 0 && rest.states[..|front|] == front
    ensures Joined(before, rest).states != []
    ensures before + [front[0]] + front[1..] <= Joined(before, rest).states
    ensures forall x :: x in rest.states ==> x in Joined(before, rest).states
  {
    assert before + [front[0]] + front[1..] == before + front;
    assert before + rest.states == before + (front + rest.states[|front|..]);
  }

  /** A stashed merge of a head that stays one keeps its row through the pull. */
  lemma {:induction false} StashRowStays(cfg: Config, w: World, account: Word, chosen: Word, env: Env, m: Stash)
    requires !HasNewHead(cfg, w, account, env)
    requires chosen in Heads(After(cfg, w, account, env).vault.graph.rows, account)
    requires (account, chosen) in w.vault.stash ==> m == w.vault.stash[(account, chosen)]
    ensures var p := After(cfg, w, account, env).vault;
            (account, chosen) in w.vault.stash ==> p == p.(stash := p.stash[(account, chosen) := m])
  {
    var p := After(cfg, w, account, env).vault;
    PullFollows(cfg, w, account, env);
    if (account, chosen) in w.vault.stash {
      HeadKeepsItsRow(w.vault, p, account, chosen);
      assert p.stash[(account, chosen) := m] == p.stash;
    }
  }

  lemma {:induction false} GoesOnToPublish(cfg: Config, w: World, key: Word, account: Word, chosen: Word, env: Env)
    returns (m: Stash)
    requires account in w.vault.graph.accounts && Pulled(cfg, w, account, env).ok
    requires !MergeFound(cfg, w, account, chosen, env) && !HasNewHead(cfg, w, account, env)
    requires chosen in Heads(After(cfg, w, account, env).vault.graph.rows, account)
    requires (account, chosen) in w.vault.stash || env.sealed.Some?
    ensures var after := After(cfg, w, account, env);
            && after.vault.vaultId == w.vault.vaultId
            && IsMerge(w.vault, after.vault, key, account, chosen, env, m)
            && ResolveRun(cfg, w, key, account, chosen, false, env)
               == Joined([w] + InWorld(w, Pulled(cfg, w, account, env).states),
                         Publish(cfg, after, account, chosen, m, (account, chosen) in w.vault.stash, env))
  {
    var after := After(cfg, w, account, env);
    var stash := Stashed(w.vault, account, chosen);
    PullFollows(cfg, w, account, env);
    MergeIsBuilt(w.vault, after.vault, key, account, chosen, env);
    m := BuildMerge(after.vault.graph.rows, key, account, chosen, stash, env.sealed).value;
    assert AfterPull(cfg, after, key, account, chosen, Heads(w.vault.graph.rows, account), stash, env)
        == Publish(cfg, after, account, chosen, m, stash.Some?, env);
  }

  lemma {:induction false} PublishGoesOn(cfg: Config, w: World, account: Word, chosen: Word, m: Stash,
                                         stashPresent: bool, env: Env)
    ensures var v := if stashPresent then w.vault else StashMerge(w.vault, account, chosen, m);
            var met, c := StepsChain(w.log, env.others), MergeContent(cfg, w.vault.vaultId, account, chosen, m);
            var landed := LandIn(met, c, env.slot);
            var r := Publish(cfg, w, account, chosen, m, stashPresent, env);
            && |r.states| >= 3 && r.states[..3] == [w, w.(vault := v), World(v, met, w.own)]
            && (env.fate.Lost? || landed.None? ==> r.outcome == ChainFailed && Last(r) == World(v, met, w.own))
            && (!env.fate.Lost? && landed.Some? ==>
                  var here := LandedWorld(w, v, c, env);
                  && here in r.states && Last(r).own == here.own && Last(r).log == here.log
                  && (env.fate.LandedUnreported? ==> r.outcome == ChainFailed && Last(r) == here)
                  && (env.fate.Confirmed? ==> r.outcome.Published? || r.outcome.StoreFailed?))
  {
    var v := if stashPresent then w.vault else StashMerge(w.vault, account, chosen, m);
    var met, c := StepsChain(w.log, env.others), MergeContent(cfg, w.vault.vaultId, account, chosen, m);
    PublishUnconfirmed(cfg, w, account, chosen, m, stashPresent, env);
    if env.fate.Confirmed? && LandIn(met, c, env.slot).Some? {
      var landed := LandedWorld(w, v, c, env);
      var rest := Finish(cfg, landed, account, chosen, landed.own[|w.own|]);
      PublishConfirmed(cfg, w, account, chosen, m, stashPresent, env);
      FinishKeepsChain(cfg, landed, account, chosen, landed.own[|w.own|]);
      assert rest.states[0] in rest.states;
    }
  }

  lemma {:induction false} FinishKeepsChain(cfg: Config, w: World, account: Word, chosen: Word, ev: Event)
    ensures var r := Finish(cfg, w, account, chosen, ev);
            && Last(r).own == w.own && Last(r).log == w.log
            && (r.outcome.Published? || r.outcome.StoreFailed?)
  {
  }

  /**
   The finishing steps in order: revision, thaw, stash row, checkpoint. As long as the account is not thawed
   onto the merge the stash is as it was, and as long as the stash row is there the checkpoint is.
   */
  lemma {:induction false} FinishOrder(cfg: Config, w: World, account: Word, chosen: Word, ev: Event, x: World)
    requires x in Finish(cfg, w, account, chosen, ev).states
    ensures x.vault.stash == w.vault.stash || x.vault.stash == w.vault.stash - {(account, chosen)}
    ensures x.vault.stash != w.vault.stash ==>
              account in x.vault.graph.accounts
              && x.vault.graph.accounts[account] == Identity(cfg.idOf(ev.content), false)
    ensures (account, chosen) in x.vault.stash ==> x.vault.checkpoint == w.vault.checkpoint
  {
  }

  /** The answer `ChainMoved` means that the chain moved, and comes whenever it has, unless the merge is found. */
  lemma {:induction false} ChainMovedIff(cfg: Config, w: World, key: Word, account: Word, chosen: Word, env: Env)
    ensures ResolveRun(cfg, w, key, account, chosen, false, env).outcome.ChainMoved?
            <==> account in w.vault.graph.accounts && Pulled(cfg, w, account, env).ok
                 && !MergeFound(cfg, w, account, chosen, env) && HasNewHead(cfg, w, account, env)
  {
    UnknownAccount(cfg, w, key, account, chosen, false, env);
    if account in w.vault.graph.accounts {
      if !Pulled(cfg, w, account, env).ok {
        FailedPull(cfg, w, key, account, chosen, env);
      } else if MergeFound(cfg, w, account, chosen, env) {
        FoundAnswer(cfg, w, key, account, chosen, env);
      } else if HasNewHead(cfg, w, account, env) {
        MovedChainIsRefused(cfg, w, key, account, chosen, env);
      } else if chosen !in Heads(After(cfg, w, account, env).vault.graph.rows, account) {
        DemotedIsRefused(cfg, w, key, account, chosen, env);
      } else if (account, chosen) !in w.vault.stash && env.sealed.None? {
        UnopenableIsRefused(cfg, w, key, account, chosen, env);
      } else {
        var _ := GoesOn(cfg, w, key, account, chosen, env);
        GoesOnOutcome(cfg, w, key, account, chosen, env);
      }
    }
  }

  lemma {:induction false} GoesOnOutcome(cfg: Config, w: World, key: Word, account: Word, chosen: Word, env: Env)
    requires account in w.vault.graph.accounts && Pulled(cfg, w, account, env).ok
    requires !MergeFound(cfg, w, account, chosen, env) && !HasNewHead(cfg, w, account, env)
    requires chosen in Heads(After(cfg, w, account, env).vault.graph.rows, account)
    requires (account, chosen) in w.vault.stash || env.sealed.Some?
    ensures !ResolveRun(cfg, w, key, account, chosen, false, env).outcome.ChainMoved?
  {
    var m := GoesOn(cfg, w, key, account, chosen, env);
    var c := Content(w.vault.vaultId, account, chosen, cfg.publicKey(m.seed), m.schema, m.payload);
    assert env.fate.Lost? || LandIn(StepsChain(w.log, env.others), c, env.slot).None?
        || env.fate.LandedUnreported? || env.fate.Confirmed?;
  }

  /** Whatever a live call puts on chain, the account had no new head and the chosen revision was one all along. */
  lemma {:induction false} PublishesOnlyUnmoved(cfg: Config, w: World, key: Word, account: Word, chosen: Word,
                                                env: Env, x: World)
    requires x in ResolveRun(cfg, w, key, account, chosen, false, env).states && x.own != w.own
    ensures Heads(After(cfg, w, account, env).vault.graph.rows, account) <= Heads(w.vault.graph.rows, account)
    ensures chosen in Heads(After(cfg, w, account, env).vault.graph.rows, account)
  {
    LiveStates(cfg, w, key, account, chosen, env, x);
    KilledInPublish(cfg, After(cfg, w, account, env), key, account, chosen, Heads(w.vault.graph.rows, account),
                    Stashed(w.vault, account, chosen), env, x);
  }
}
