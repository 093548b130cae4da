/**
 What a published merge leaves behind: the heads, the freeze flags, the rows, the chain, and what
 the checkpoint then claims to cover.
 */
module PublishedMerge {
  import opened Bytes
  import opened Signing
  import opened ChainLog
  import opened Store
  import opened Pulls
  import opened Resolve
  import opened Convergence
  import opened Runs
  import opened Outcomes

  /** A row sits under the canonical id of `c` with another account or parent: a hash clash. */
  ghost predicate ContentClash(cfg: Config, rows: seq<Row>, c: Content) {
    exists r :: r in rows && r.id == cfg.idOf(c) && (r.content.account != c.account || r.content.parent != c.parent)
  }

  /** Nothing in the table stands for the merge already. */
  ghost predicate Unseen(cfg: Config, rows: seq<Row>, c: Content) {
    !HasId(rows, cfg.idOf(c)) && forall r :: r in rows ==> !Mergeable(r, c)
  }

  /** Whatever stood for the merge already would be a child of the chosen head. */
  lemma {:induction false} OnHeadIsUnseen(cfg: Config, rows: seq<Row>, c: Content)
    requires c.parent in Heads(rows, c.account)
    ensures Unseen(cfg, rows, c) || ContentClash(cfg, rows, c)
  {
  }

  /** A place above the chain's height is not in the table. */
  lemma {:induction false} NewPlaceIsUnseen(rows: seq<Row>, l: Log, account: Word, p: Place)
    requires WellFormed(l) && Rooted(rows, l.events) && p.block > l.nextBlock
    ensures !HasPlace(rows, account, p)
  {
  }

  /** The vault after a merge on top of `chosen` was ingested and its account thawed. */
  ghost predicate MergedOnto(cfg: Config, before: VaultState, after: VaultState, account: Word, chosen: Word,
                             ev: Event) {
    var id := cfg.idOf(ev.content);
    && Heads(after.graph.rows, account) == Heads(before.graph.rows, account) - {chosen} + {id}
    && |Heads(after.graph.rows, account)| == |Heads(before.graph.rows, account)|
    && account in after.graph.accounts && after.graph.accounts[account] == Identity(id, false)
    && (forall a :: a != account ==>
          && Heads(after.graph.rows, a) == Heads(before.graph.rows, a)
          && (a in after.graph.accounts <==> a in before.graph.accounts)
          && (a in before.graph.accounts ==> after.graph.accounts[a] == before.graph.accounts[a]))
    && after.graph.rows == before.graph.rows + [Row(id, ev.content, Some(PlaceOf(ev.anchor)))]
    && (account, chosen) !in after.stash
  }

  /** Ingesting an unseen merge on top of a head inserts it, and only swaps heads. */
  lemma {:induction false} UnseenIsInserted(cfg: Config, g: Graph, account: Word, chosen: Word, ev: Event)
    requires ev.content.account == account && ev.content.parent == chosen && Storable(ev.anchor)
    requires Unseen(cfg, g.rows, ev.content) && !HasPlace(g.rows, account, PlaceOf(ev.anchor))
    requires chosen in Heads(g.rows, account)
    ensures var id := cfg.idOf(ev.content);
            var g' := Insert(id, g, ev);
            && Ingest(cfg.idOf, g, ev) == Ok(Ingestion(g', Inserted))
            && id !in Heads(g.rows, account)
            && (HasChild(g'.rows, account, id) <==> HasChild(g.rows, account, id))
            && FindRow(g'.rows, account, id).Some?
  {
  }

  /** The vault after an unseen merge on top of a head was ingested. */
  function Swapped(cfg: Config, s: VaultState, ev: Event): VaultState {
    s.(graph := Insert(cfg.idOf(ev.content), s.graph, ev))
  }

  lemma {:induction false} SwappedThaws(cfg: Config, s: VaultState, account: Word, chosen: Word, ev: Event)
    requires ev.content.account == account && ev.content.parent == chosen && Storable(ev.anchor)
    requires Unseen(cfg, s.graph.rows, ev.content) && !HasPlace(s.graph.rows, account, PlaceOf(ev.anchor))
    requires chosen in Heads(s.graph.rows, account)
    ensures var id := cfg.idOf(ev.content);
            var r := ClearFrozen(Swapped(cfg, s, ev), account, id);
            && Heads(Swapped(cfg, s, ev).graph.rows, account)
               == Heads(s.graph.rows, account) - {chosen} + (if HasChild(s.graph.rows, account, id) then {} else {id})
            && (r.Ok? <==> !HasChild(s.graph.rows, account, id))
            && (r.Err? ==> r == Err(NotAHead))
  {
  }

  lemma {:induction false} OthersUntouched(cfg: Config, s: VaultState, account: Word, chosen: Word, ev: Event, a: Word)
    requires ev.content.account == account && ev.content.parent == chosen && Storable(ev.anchor)
    requires Unseen(cfg, s.graph.rows, ev.content) && !HasPlace(s.graph.rows, account, PlaceOf(ev.anchor))
    requires chosen in Heads(s.graph.rows, account) && a != account
    ensures var g, g' := s.graph, Swapped(cfg, s, ev).graph;
            && Heads(g'.rows, a) == Heads(g.rows, a)
            && (a in g'.accounts <==> a in g.accounts)
            && (a in g.accounts ==> g'.accounts[a] == g.accounts[a])
  {
  }

  /** How a finishing call ends when the ingest inserts. */
  lemma {:induction false} FinishInserted(cfg: Config, w: World, account: Word, chosen: Word, ev: Event)
    requires Ingest(cfg.idOf, w.vault.graph, ev) == Ok(Ingestion(Swapped(cfg, w.vault, ev).graph, Inserted))
    ensures var r := Finish(cfg, w, account, chosen, ev);
            match ClearFrozen(Swapped(cfg, w.vault, ev), account, cfg.idOf(ev.content))
            case Err(e) => r.outcome == StoreFailed(e)
            case Ok(thawed) =>
              && r.outcome.Published?
              && Last(r).vault.graph == thawed.graph && Last(r).vault.stash == ClearStash(thawed, account, chosen).stash
  {
  }

  /**
   Once the merge has landed, an unseen one is finished off exactly when no row claims it as parent;
   then the heads are as before with the merge in the chosen head's place.
   */
  lemma {:induction false} FinishResult(cfg: Config, w: World, account: Word, chosen: Word, ev: Event)
    requires ev.content.account == account && ev.content.parent == chosen && Storable(ev.anchor)
    requires Unseen(cfg, w.vault.graph.rows, ev.content)
    requires !HasPlace(w.vault.graph.rows, account, PlaceOf(ev.anchor))
    requires chosen in Heads(w.vault.graph.rows, account)
    ensures var r := Finish(cfg, w, account, chosen, ev);
            && (r.outcome.Published? <==> !HasChild(w.vault.graph.rows, account, cfg.idOf(ev.content)))
            && (r.outcome.Published? ==> MergedOnto(cfg, w.vault, Last(r).vault, account, chosen, ev))
            && (!r.outcome.Published? ==> r.outcome == StoreFailed(NotAHead))
  {
    UnseenIsInserted(cfg, w.vault.graph, account, chosen, ev);
    SwappedThaws(cfg, w.vault, account, chosen, ev);
    FinishInserted(cfg, w, account, chosen, ev);
    if Finish(cfg, w, account, chosen, ev).outcome.Published? {
      SwappedIsMergedOnto(cfg, w.vault, Last(Finish(cfg, w, account, chosen, ev)).vault, account, chosen, ev);
    }
  }

  lemma {:induction false} SwappedIsMergedOnto(cfg: Config, s: VaultState, after: VaultState, account: Word,
                                               chosen: Word, ev: Event)
    requires ev.content.account == account && ev.content.parent == chosen && Storable(ev.anchor)
    requires Unseen(cfg, s.graph.rows, ev.content) && !HasPlace(s.graph.rows, account, PlaceOf(ev.anchor))
    requires chosen in Heads(s.graph.rows, account)
    requires var r := ClearFrozen(Swapped(cfg, s, ev), account, cfg.idOf(ev.content));
             r.Ok? && after.graph == r.value.graph && (account, chosen) !in after.stash
    ensures MergedOnto(cfg, s, after, account, chosen, ev)
  {
    var id := cfg.idOf(ev.content);
    UnseenIsInserted(cfg, s.graph, account, chosen, ev);
    SwappedThaws(cfg, s, account, chosen, ev);
    forall a | a != account
      ensures Heads(after.graph.rows, a) == Heads(s.graph.rows, a)
              && (a in after.graph.accounts <==> a in s.graph.accounts)
              && (a in s.graph.accounts ==> after.graph.accounts[a] == s.graph.accounts[a])
    {
      OthersUntouched(cfg, s, account, chosen, ev, a);
    }
    HeadSwap(Heads(s.graph.rows, account), chosen, id);
  }

  lemma {:induction false} HeadSwap(heads: set<Word>, chosen: Word, id: Word)
    requires chosen in heads && id !in heads
    ensures |heads - {chosen} + {id}| == |heads|
  {
  }

  /** The merge a live call gets as far as building. */
  function Built(cfg: Config, w: World, key: Word, account: Word, chosen: Word, env: Env): Result<Stash, StoreError> {
    BuildMerge(Final(Pulled(cfg, w, account, env)).graph.rows, key, account, chosen,
               Stashed(w.vault, account, chosen), env.sealed)
  }

  function BuiltContent(cfg: Config, w: World, key: Word, account: Word, chosen: Word, env: Env): Content
    requires Built(cfg, w, key, account, chosen, env).Ok?
  {
    MergeContent(cfg, Final(Pulled(cfg, w, account, env)).vaultId, account, chosen,
                 Built(cfg, w, key, account, chosen, env).value)
  }

  /** How a published merge came about. */
  lemma {:induction false} PublishPath(cfg: Config, w: World, account: Word, chosen: Word, m: Stash,
                                       stashPresent: bool, env: Env)
    requires Publish(cfg, w, account, chosen, m, stashPresent, env).outcome.Published?
    ensures var c := MergeContent(cfg, w.vault.vaultId, account, chosen, m);
            && LandIn(StepsChain(w.log, env.others), c, env.slot).Some?
            && var v := if stashPresent then w.vault else StashMerge(w.vault, account, chosen, m);
               var landed := LandedWorld(w, v, c, env);
               var r := Finish(cfg, landed, account, chosen, landed.own[|w.own|]);
               var whole := Publish(cfg, w, account, chosen, m, stashPresent, env);
               whole.outcome == r.outcome && Last(whole) == Last(r)
  {
  }

  lemma {:induction false} AfterPullPath(cfg: Config, w: World, key: Word, account: Word, chosen: Word,
                                         pre: set<Word>, stash: Option<Stash>, env: Env)
    requires AfterPull(cfg, w, key, account, chosen, pre, stash, env).outcome.Published?
    ensures chosen in Heads(w.vault.graph.rows, account)
    ensures BuildMerge(w.vault.graph.rows, key, account, chosen, stash, env.sealed).Ok?
    ensures AfterPull(cfg, w, key, account, chosen, pre, stash, env)
            == Publish(cfg, w, account, chosen,
                       BuildMerge(w.vault.graph.rows, key, account, chosen, stash, env.sealed).value, stash.Some?, env)
  {
  }

  lemma {:induction false} PulledIsBased(cfg: Config, w: World, account: Word, env: Env)
    requires Based(w)
    ensures forall x :: x in Pulled(cfg, w, account, env).states ==> Based(w.(vault := x))
    ensures Based(w.(vault := Final(Pulled(cfg, w, account, env))))
  {
    var pruned := Prune(w.vault, account);
    RootedIsStable(cfg, w.log.events, w.vault.vaultId);
    PullPreserves(cfg, w.log.events, env.faults, pruned, pruned.checkpoint, w.log.nextBlock, [], 1, -1,
                  rows => Rooted(rows, w.log.events));
    PullFollows(cfg, w, account, env);
  }

  lemma {:induction false} PulledIsSane(cfg: Config, w: World, account: Word, env: Env)
    requires Sane(w)
    ensures Sane(w.(vault := Final(Pulled(cfg, w, account, env))))
  {
    var pruned := Prune(w.vault, account);
    PulledIsBased(cfg, w, account, env);
    PullLoopFollows(cfg, w.log.events, env.faults, pruned, pruned.checkpoint, w.log.nextBlock, [], 1);
    PullFollows(cfg, w, account, env);
  }

  /** The world after publishing, seen from the world after the pull. */
  lemma {:induction false} PublishResult(cfg: Config, w: World, account: Word, chosen: Word, m: Stash,
                                         stashPresent: bool, env: Env)
    requires WellFormed(w.log) && Rooted(w.vault.graph.rows, w.log.events)
    requires chosen in Heads(w.vault.graph.rows, account)
    requires !ContentClash(cfg, w.vault.graph.rows, MergeContent(cfg, w.vault.vaultId, account, chosen, m))
    requires Publish(cfg, w, account, chosen, m, stashPresent, env).outcome.Published?
    ensures var r := Publish(cfg, w, account, chosen, m, stashPresent, env);
            var ev := Event(MergeContent(cfg, w.vault.vaultId, account, chosen, m), r.outcome.anchor);
            && r.outcome.id == cfg.idOf(ev.content)
            && Last(r).own == w.own + [ev] && ev in Last(r).log.events && ev.anchor.block > w.log.nextBlock
            && MergedOnto(cfg, w.vault, Last(r).vault, account, chosen, ev)
  {
    var c := MergeContent(cfg, w.vault.vaultId, account, chosen, m);
    PublishPath(cfg, w, account, chosen, m, stashPresent, env);
    OnHeadIsUnseen(cfg, w.vault.graph.rows, c);
    var v := if stashPresent then w.vault else StashMerge(w.vault, account, chosen, m);
    var landed := LandedWorld(w, v, c, env);
    var ev := landed.own[|w.own|];
    var met := StepsChain(w.log, env.others);
    StepsGrow(w.log, env.others);
    RootedInLongerLog(w.vault.graph.rows, w.log.events, met.events);
    NewPlaceIsUnseen(w.vault.graph.rows, met, account, PlaceOf(ev.anchor));
    StoredEventIsStorable(cfg, landed, account, chosen, ev);
    FinishResult(cfg, landed, account, chosen, ev);
    assert MergedOnto(cfg, v, Last(Finish(cfg, landed, account, chosen, ev)).vault, account, chosen, ev);
  }

  lemma {:induction false} StoredEventIsStorable(cfg: Config, w: World, account: Word, chosen: Word, ev: Event)
    requires Unseen(cfg, w.vault.graph.rows, ev.content) && Finish(cfg, w, account, chosen, ev).outcome.Published?
    ensures Storable(ev.anchor)
  {
  }

  /**
   A published merge, on an arbitrary revision graph: one event was added by this device, its parent
   is the chosen head, it is stored with its anchor, no other account is touched, and the heads only
   swapped the chosen head for it. The alternative is a clash of canonical ids.
   */
  lemma {:induction false} PublishedResult(cfg: Config, w: World, key: Word, account: Word, chosen: Word, env: Env)
    requires Sane(w)
    requires ResolveRun(cfg, w, key, account, chosen, false, env).outcome.Published?
    ensures Built(cfg, w, key, account, chosen, env).Ok?
    ensures var r, p := ResolveRun(cfg, w, key, account, chosen, false, env), Final(Pulled(cfg, w, account, env));
            var ev := Event(BuiltContent(cfg, w, key, account, chosen, env), r.outcome.anchor);
            || ContentClash(cfg, p.graph.rows, ev.content)
            || (&& r.outcome.id == cfg.idOf(ev.content) && ev.content.vault == w.vault.vaultId
                && Last(r).own == w.own + [ev] && ev in Last(r).log.events && ev.anchor.block > w.log.nextBlock
                && MergedOnto(cfg, p, Last(r).vault, account, chosen, ev))
  {
    PullFollows(cfg, w, account, env);
    PulledIsSane(cfg, w, account, env);
    var after := w.(vault := Final(Pulled(cfg, w, account, env)));
    AfterPullPath(cfg, after, key, account, chosen, Heads(w.vault.graph.rows, account),
                  Stashed(w.vault, account, chosen), env);
    if !ContentClash(cfg, after.vault.graph.rows, BuiltContent(cfg, w, key, account, chosen, env)) {
      PublishResult(cfg, after, account, chosen, Built(cfg, w, key, account, chosen, env).value,
                    Stashed(w.vault, account, chosen).Some?, env);
    }
  }

  // ---------------------------------------------------------------------
  // What the checkpoint claims afterwards
  // ---------------------------------------------------------------------

  /** Every event of the vault up to its checkpoint is ingested. */
  ghost predicate Healthy(cfg: Config, w: World) {
    Sane(w) && Covered(cfg, w.vault, w.log.events, w.vault.checkpoint)
  }

  /** What lands from now on lies above the present height. */
  lemma {:induction false} StepsLandAbove(l: Log, steps: seq<ChainStep>)
    requires WellFormed(l)
    ensures EarlierLog(l, StepsChain(l, steps))
    decreases |steps|
  {
    if steps != [] {
      StepGrows(l, steps[0]);
      StepsGrow(StepChain(l, steps[0]), steps[1..]);
      StepsLandAbove(StepChain(l, steps[0]), steps[1..]);
    }
  }

  /** After a successful pull every event of the vault on the log is known. */
  lemma {:induction false} PulledKnowsAll(cfg: Config, w: World, account: Word, env: Env)
    requires Healthy(cfg, w)
    ensures var t := Pulled(cfg, w, account, env);
            && Sane(w.(vault := Final(t)))
            && (t.ok ==> Covered(cfg, Final(t), w.log.events, w.log.nextBlock))
  {
    var pruned := Prune(w.vault, account);
    assert Covered(cfg, pruned, w.log.events, pruned.checkpoint);
    PullLoopCovers(cfg, w.log.events, env.faults, pruned, pruned.checkpoint, w.log.nextBlock, [], 1, w.log.events);
    PulledIsSane(cfg, w, account, env);
  }

  /** Another event of the vault above the head that the call pulled, up to the merge's block. */
  ghost predicate Meanwhile(before: Log, after: Log, vault: Word, merge: Event, e: Event) {
    && e in after.events && e != merge && e.content.vault == vault
    && before.nextBlock < e.anchor.block <= merge.anchor.block
  }

  lemma {:induction false} CoverageWithMerge(cfg: Config, p: VaultState, x: VaultState, row: Row, before: Log,
                                             after: Log, merge: Event)
    requires WellFormed(before) && WellFormed(after) && EarlierLog(before, after)
    requires Rooted(p.graph.rows, before.events) && Covered(cfg, p, before.events, before.nextBlock)
    requires merge in after.events && x.checkpoint == merge.anchor.block
    requires row.id == cfg.idOf(merge.content) && row.place == Some(PlaceOf(merge.anchor))
    requires x.graph.rows == p.graph.rows + [row] && x.vaultId == p.vaultId
    ensures Covered(cfg, x, after.events, x.checkpoint)
            <==> forall e :: Meanwhile(before, after, x.vaultId, merge, e) ==> HasId(x.graph.rows, cfg.idOf(e.content))
  {
  }

  /** The log from the pull to the landing. */
  lemma {:induction false} LogUntilLanding(before: Log, others: seq<ChainStep>, c: Content, slot: Slot)
    requires WellFormed(before) && LandIn(StepsChain(before, others), c, slot).Some?
    ensures var met := StepsChain(before, others);
            var landed := LandIn(met, c, slot).value;
            && WellFormed(met) && WellFormed(landed) && EarlierLog(before, landed) && EarlierLog(met, landed)
            && OwnEvent(met, c, slot).anchor.block > before.nextBlock
  {
    var met := StepsChain(before, others);
    StepsGrow(before, others);
    StepsLandAbove(before, others);
    LandGrows(met, c, slot);
    assert EarlierLog(met, LandIn(met, c, slot).value);
    EarlierTransitive(before, met, LandIn(met, c, slot).value);
  }

  lemma {:induction false} EarlierTransitive(a: Log, b: Log, c: Log)
    requires EarlierLog(a, b) && EarlierLog(b, c)
    ensures EarlierLog(a, c)
  {
  }

  /** The merge `c` landed after `others`, was stored, and the checkpoint moved to its block. */
  lemma {:induction false} LandedCoverage(cfg: Config, w: World, x: World, c: Content, env: Env)
    requires WellFormed(w.log) && LandIn(StepsChain(w.log, env.others), c, env.slot) == Some(x.log)
    requires Rooted(w.vault.graph.rows, w.log.events) && Covered(cfg, w.vault, w.log.events, w.log.nextBlock)
    requires var ev := OwnEvent(StepsChain(w.log, env.others), c, env.slot);
             && x.vault.checkpoint == ev.anchor.block
             && x.vault.graph.rows == w.vault.graph.rows + [Row(cfg.idOf(c), c, Some(PlaceOf(ev.anchor)))]
    requires x.vault.vaultId == w.vault.vaultId
    ensures var ev := OwnEvent(StepsChain(w.log, env.others), c, env.slot);
            Covered(cfg, x.vault, x.log.events, x.vault.checkpoint)
            <==> forall e :: Meanwhile(w.log, x.log, w.vault.vaultId, ev, e) ==>
                HasId(x.vault.graph.rows, cfg.idOf(e.content))
  {
    LogUntilLanding(w.log, env.others, c, env.slot);
    var ev := OwnEvent(StepsChain(w.log, env.others), c, env.slot);
    CoverageWithMerge(cfg, w.vault, x.vault, Row(cfg.idOf(c), c, Some(PlaceOf(ev.anchor))), w.log, x.log, ev);
  }

  lemma {:induction false} FinishEndsAt(cfg: Config, w: World, account: Word, chosen: Word, ev: Event)
    requires Finish(cfg, w, account, chosen, ev).outcome.Published?
    requires w.vault.checkpoint <= ev.anchor.block <= I64_MAX
    ensures Last(Finish(cfg, w, account, chosen, ev)).vault.checkpoint == ev.anchor.block
    ensures Last(Finish(cfg, w, account, chosen, ev)).log == w.log
    ensures Finish(cfg, w, account, chosen, ev).outcome.anchor == ev.anchor
  {
  }

  lemma {:induction false} PublishEndsAt(cfg: Config, w: World, account: Word, chosen: Word, m: Stash,
                                         stashPresent: bool, env: Env)
    requires WellFormed(w.log) && w.vault.checkpoint <= w.log.nextBlock && chosen in Heads(w.vault.graph.rows, account)
    requires !ContentClash(cfg, w.vault.graph.rows, MergeContent(cfg, w.vault.vaultId, account, chosen, m))
    requires Publish(cfg, w, account, chosen, m, stashPresent, env).outcome.Published?
    ensures var r := Publish(cfg, w, account, chosen, m, stashPresent, env);
            var met, c := StepsChain(w.log, env.others), MergeContent(cfg, w.vault.vaultId, account, chosen, m);
            && LandIn(met, c, env.slot) == Some(Last(r).log)
            && Last(r).vault.checkpoint == r.outcome.anchor.block
            && Event(c, r.outcome.anchor) == OwnEvent(met, c, env.slot)
  {
    var c := MergeContent(cfg, w.vault.vaultId, account, chosen, m);
    PublishPath(cfg, w, account, chosen, m, stashPresent, env);
    OnHeadIsUnseen(cfg, w.vault.graph.rows, c);
    var landed := LandedWorld(w, if stashPresent then w.vault else StashMerge(w.vault, account, chosen, m), c, env);
    var ev := landed.own[|w.own|];
    StepsGrow(w.log, env.others);
    StoredEventIsStorable(cfg, landed, account, chosen, ev);
    FinishEndsAt(cfg, landed, account, chosen, ev);
  }

  /** The same from the world after the pull. */
  lemma {:induction false} PublishCoverage(cfg: Config, w: World, account: Word, chosen: Word, m: Stash,
                                           stashPresent: bool, env: Env)
    requires WellFormed(w.log) && w.vault.checkpoint <= w.log.nextBlock && chosen in Heads(w.vault.graph.rows, account)
    requires Rooted(w.vault.graph.rows, w.log.events) && Covered(cfg, w.vault, w.log.events, w.log.nextBlock)
    requires !ContentClash(cfg, w.vault.graph.rows, MergeContent(cfg, w.vault.vaultId, account, chosen, m))
    requires Publish(cfg, w, account, chosen, m, stashPresent, env).outcome.Published?
    ensures var r := Publish(cfg, w, account, chosen, m, stashPresent, env);
            var x, ev := Last(r), Event(MergeContent(cfg, w.vault.vaultId, account, chosen, m), r.outcome.anchor);
            Covered(cfg, x.vault, x.log.events, x.vault.checkpoint)
            <==> forall e :: Meanwhile(w.log, x.log, w.vault.vaultId, ev, e) ==>
                HasId(x.vault.graph.rows, cfg.idOf(e.content))
  {
    var c := MergeContent(cfg, w.vault.vaultId, account, chosen, m);
    var x := Last(Publish(cfg, w, account, chosen, m, stashPresent, env));
    PublishResult(cfg, w, account, chosen, m, stashPresent, env);
    PublishEndsAt(cfg, w, account, chosen, m, stashPresent, env);
    PublishKeepsVaultId(cfg, w, account, chosen, m, stashPresent, env);
    LandedCoverage(cfg, w, x, c, env);
  }

  lemma {:induction false} PublishKeepsVaultId(cfg: Config, w: World, account: Word, chosen: Word, m: Stash,
                                               stashPresent: bool, env: Env)
    ensures Last(Publish(cfg, w, account, chosen, m, stashPresent, env)).vault.vaultId == w.vault.vaultId
  {
  }

  /**
   After a published merge the checkpoint stands at the merge's block, and the claim that everything
   up to it is ingested holds exactly when the chain holds no other event of the vault above the head
   that was pulled and up to the merge's block (the rest of that block included), other than one
   whose id is stored already. The alternative is a clash of canonical ids.
   */
  lemma {:induction false} PublishedCoverage(cfg: Config, w: World, key: Word, account: Word, chosen: Word, env: Env)
    requires Healthy(cfg, w)
    requires ResolveRun(cfg, w, key, account, chosen, false, env).outcome.Published?
    ensures Built(cfg, w, key, account, chosen, env).Ok?
    ensures var r := ResolveRun(cfg, w, key, account, chosen, false, env);
            var c := BuiltContent(cfg, w, key, account, chosen, env);
            var x := Last(r);
            || ContentClash(cfg, Final(Pulled(cfg, w, account, env)).graph.rows, c)
            || (&& x.vault.checkpoint == r.outcome.anchor.block
                && (Covered(cfg, x.vault, x.log.events, x.vault.checkpoint)
                    <==> forall e :: Meanwhile(w.log, x.log, w.vault.vaultId, Event(c, r.outcome.anchor), e) ==>
                           HasId(x.vault.graph.rows, cfg.idOf(e.content))))
  {
    var p := Final(Pulled(cfg, w, account, env));
    PullFollows(cfg, w, account, env);
    PulledKnowsAll(cfg, w, account, env);
    var after := w.(vault := p);
    AfterPullPath(cfg, after, key, account, chosen, Heads(w.vault.graph.rows, account),
                  Stashed(w.vault, account, chosen), env);
    var m, stashPresent := Built(cfg, w, key, account, chosen, env).value, Stashed(w.vault, account, chosen).Some?;
    if !ContentClash(cfg, p.graph.rows, BuiltContent(cfg, w, key, account, chosen, env)) {
      PublishEndsAt(cfg, after, account, chosen, m, stashPresent, env);
      PublishCoverage(cfg, after, account, chosen, m, stashPresent, env);
    }
  }

  // ---------------------------------------------------------------------
  // An event the checkpoint has skipped
  // ---------------------------------------------------------------------

  lemma {:induction false} OthersLeaveUnknown(idOf: IdOf, g: Graph, f: Event, e: Event)
    requires !Known(idOf, g.rows, e) && Ingest(idOf, g, f).Ok?
    requires idOf(f.content) != idOf(e.content) && f.anchor.block != e.anchor.block
    ensures !Known(idOf, Ingest(idOf, g, f).value.graph.rows, e)
  {
  }

  /** Nothing above the vault's checkpoint repeats the id of `e`. */
  ghost predicate NotRepeated(cfg: Config, events: seq<Event>, s: VaultState, e: Event) {
    forall f :: f in events && f.content.vault == s.vaultId && f.anchor.block > s.checkpoint ==>
        cfg.idOf(f.content) != cfg.idOf(e.content)
  }

  lemma {:induction false} SkippedStaysUnknown(cfg: Config, log: Log, faults: set<nat>, s: VaultState, e: Event)
    requires e.anchor.block <= s.checkpoint && !Known(cfg.idOf, s.graph.rows, e) && NotRepeated(cfg, log.events, s, e)
    ensures forall x :: x in PullTrace(cfg, log, faults, s, None, None).states ==> !Known(cfg.idOf, x.graph.rows, e)
  {
    forall g: Graph, f: Event | !Known(cfg.idOf, g.rows, e) && f in log.events && f.content.vault == s.vaultId
                                && f.anchor.block > s.checkpoint && Ingest(cfg.idOf, g, f).Ok?
      ensures !Known(cfg.idOf, Ingest(cfg.idOf, g, f).value.graph.rows, e)
    {
      OthersLeaveUnknown(cfg.idOf, g, f, e);
    }
    PullPreserves(cfg, log.events, faults, s, s.checkpoint, log.nextBlock, [], 1, s.checkpoint,
                  rows => !Known(cfg.idOf, rows, e));
  }

  /**
   Once the checkpoint has passed an event that is not ingested, no number of default pulls, against
   whatever logs, brings it in, unless an event with the same id lands again.
   */
  lemma {:induction false} SkippedIsLost(cfg: Config, s: VaultState, attempts: seq<Attempt>, e: Event)
    requires e.anchor.block <= s.checkpoint && !Known(cfg.idOf, s.graph.rows, e)
    requires forall a :: a in attempts ==> NotRepeated(cfg, a.log.events, s, e)
    ensures !Known(cfg.idOf, RunAttempts(cfg, s, attempts).graph.rows, e)
    decreases |attempts|
  {
    if attempts != [] {
      var a := attempts[0];
      assert a in attempts;
      SkippedStaysUnknown(cfg, a.log, a.faults, s, e);
      PullLoopCovers(cfg, a.log.events, a.faults, s, s.checkpoint, a.log.nextBlock, [], 1, []);
      var x := Cut(PullTrace(cfg, a.log, a.faults, s, None, None), a.cut);
      assert x in PullTrace(cfg, a.log, a.faults, s, None, None).states;
      SkippedIsLost(cfg, x, attempts[1..], e);
    }
  }
}
