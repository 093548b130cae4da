/**
 `resolve_one`: keep one head of a forked account by publishing a merge revision on top of it. The
 call is described by the states of vault and chain it passes through, one per effect, so that a
 kill between any two effects leaves one of them.
 */
module Resolve {
  import opened Bytes
  import opened Signing
  import opened ChainLog
  import opened Store
  import opened Pulls

  /** The vault, the chain, and the events that this device put on the chain. */
  datatype World = World(vault: VaultState, log: Log, own: seq<Event>)

  /** What becomes of a publish: it lands and says so, it lands but reports an error, or it never lands. */
  datatype Fate = Confirmed | LandedUnreported | Lost

  /** Something that happens on chain without this device: a block with other devices' events, or empty blocks. */
  datatype ChainStep = Block(entries: seq<Entry>) | Blocks(n: u64)

  /** Where in its block a publish lands: the events before and after it, and what the chain gives it. */
  datatype Slot = Slot(front: seq<Entry>, txHash: Word, logIndex: u64, back: seq<Entry>)

  datatype Sealed = Sealed(payload: Bytes, nonce: Bytes)

  /**
   The environment of one call: which adapter calls of the pull fail, what re-sealing the chosen
   revision yields (None when it cannot be opened), what lands between pull and publish, which block
   the publish lands in, and the publish's fate.
   */
  datatype Env = Env(faults: set<nat>, sealed: Option<Sealed>, others: seq<ChainStep>, slot: Slot, fate: Fate)

  datatype Outcome =
    | DryRun(planned: Word)
    | Published(id: Word, anchor: Anchor)
    | AlreadyOnChain(id: Word, place: Place)
    | ChainMoved(previous: set<Word>, current: set<Word>)
    | NotCurrentHead(current: set<Word>)
    | AccountMissing
    | StoreFailed(error: StoreError)
    | ChainFailed

  function StepChain(l: Log, step: ChainStep): Log {
    match step
    case Block(entries) => LandBlock(l, entries).GetOr(l)
    case Blocks(n) => Mine(l, n)
  }

  function StepsChain(l: Log, steps: seq<ChainStep>): Log
    decreases |steps|
  {
    if steps == [] then l else StepsChain(StepChain(l, steps[0]), steps[1..])
  }

  /** The chain after a publish of `c` landed in `slot`; None when there is no such block. */
  function LandIn(l: Log, c: Content, slot: Slot): Option<Log> {
    LandBlock(l, slot.front + [Entry(c, slot.txHash, slot.logIndex)] + slot.back)
  }

  /** The event that such a publish puts on chain. */
  function OwnEvent(l: Log, c: Content, slot: Slot): (ev: Event)
    requires LandIn(l, c, slot).Some?
    ensures ev.content == c && ev in LandIn(l, c, slot).value.events
    ensures ev.anchor.block == LandIn(l, c, slot).value.nextBlock == l.nextBlock + 1
  {
    var entries := slot.front + [Entry(c, slot.txHash, slot.logIndex)] + slot.back;
    assert entries[|slot.front|] == Entry(c, slot.txHash, slot.logIndex);
    var landed := LandIn(l, c, slot).value;
    assert landed.events[|l.events| + |slot.front|] == EventsOf(entries, l.nextBlock + 1, l.nextSequence)[|slot.front|];
    landed.events[|l.events| + |slot.front|]
  }

  // ---------------------------------------------------------------------
  // The merge revision
  // ---------------------------------------------------------------------

  /** What is published for a stashed merge: signed with the stashed seed, on top of the chosen head. */
  function MergeContent(cfg: Config, vaultId: Word, account: Word, chosen: Word, m: Stash): Content {
    Content(vaultId, account, chosen, cfg.publicKey(m.seed), m.schema, m.payload)
  }

  /** `StashRebuild::compute_canonical_hash`. */
  function MergeId(cfg: Config, vaultId: Word, account: Word, chosen: Word, m: Stash): Word {
    cfg.idOf(MergeContent(cfg, vaultId, account, chosen, m))
  }

  function Stashed(s: VaultState, account: Word, chosen: Word): Option<Stash> {
    if (account, chosen) in s.stash then Some(s.stash[(account, chosen)]) else None
  }

  /** The stashed bytes, or freshly sealed ones under the supplied key and the chosen row's schema. */
  function BuildMerge(rows: seq<Row>, key: Word, account: Word, chosen: Word, stash: Option<Stash>,
                      sealed: Option<Sealed>):
    Result<Stash, StoreError>
  {
    if stash.Some? then Ok(stash.value)
    else
      var row := FindRow(rows, account, chosen);
      if row.None? then Err(AccountNotFound)
      else if sealed.None? then Err(AuthenticationFailed)
      else Ok(Stash(key, sealed.value.nonce, sealed.value.payload, row.value.content.schema))
  }

  /** The locally stored, anchored row of the stashed merge, if there is one. */
  function StashMatch(cfg: Config, s: VaultState, account: Word, chosen: Word, stash: Option<Stash>): Option<Place> {
    if stash.None? then None
    else
      var row := FindRow(s.graph.rows, account, MergeId(cfg, s.vaultId, account, chosen, stash.value));
      if row.None? then None else row.value.place
  }

  // ---------------------------------------------------------------------
  // The call
  // ---------------------------------------------------------------------

  /** The states a call passes through, from the one it starts in, and what it returns. */
  datatype Run = Run(states: seq<World>, outcome: Outcome)

  function Last(r: Run): World
    requires r.states != []
  {
    r.states[|r.states| - 1]
  }

  /** Vault states while the chain stands still. */
  function InWorld(w: World, states: seq<VaultState>): (ws: seq<World>)
    ensures |ws| == |states|
    ensures forall i :: 0 <= i < |ws| ==> ws[i] == w.(vault := states[i])
  {
    seq(|states|, i requires 0 <= i < |states| => w.(vault := states[i]))
  }

  /** Steps 10 to 12: ingest the landed merge, clear the freeze, drop the stash, move the checkpoint. */
  function Finish(cfg: Config, w: World, account: Word, chosen: Word, ev: Event): (r: Run)
    ensures r.states != [] && r.states[0] == w
  {
    var id := cfg.idOf(ev.content);
    match Ingest(cfg.idOf, w.vault.graph, ev)
    case Err(e) => Run([w], StoreFailed(e))
    case Ok(i) =>
      var ingested := w.vault.(graph := i.graph);
      match ClearFrozen(ingested, account, id)
      case Err(e) => Run([w, w.(vault := ingested)], StoreFailed(e))
      case Ok(thawed) =>
        var cleared := ClearStash(thawed, account, chosen);
        var advanced := match Advance(cleared, ev.anchor.block) case Err(_) => cleared case Ok(s) => s;
        Run([w, w.(vault := ingested), w.(vault := thawed), w.(vault := cleared), w.(vault := advanced)],
            Published(id, ev.anchor))
  }

  /** Steps 8 and 9: stash unless stashed already, then publish. */
  function Publish(cfg: Config, w: World, account: Word, chosen: Word, m: Stash, stashPresent: bool, env: Env): (r: Run)
    ensures r.states != [] && r.states[0] == w
  {
    var stashed := w.(vault := if stashPresent then w.vault else StashMerge(w.vault, account, chosen, m));
    var met := stashed.(log := StepsChain(w.log, env.others));
    var c := MergeContent(cfg, w.vault.vaultId, account, chosen, m);
    var landed := LandIn(met.log, c, env.slot);
    if env.fate.Lost? || landed.None? then Run([w, stashed, met], ChainFailed)
    else
      var ev := OwnEvent(met.log, c, env.slot);
      var published := World(met.vault, landed.value, w.own + [ev]);
      if env.fate.LandedUnreported? then Run([w, stashed, met, published], ChainFailed)
      else
        var rest := Finish(cfg, published, account, chosen, ev);
        Run([w, stashed, met] + rest.states, rest.outcome)
  }

  /** The world right after a merge with content `c` landed, for a call that had pulled `p`. */
  function LandedWorld(w: World, p: VaultState, c: Content, env: Env): World
    requires LandIn(StepsChain(w.log, env.others), c, env.slot).Some?
  {
    var met := StepsChain(w.log, env.others);
    World(p, LandIn(met, c, env.slot).value, w.own + [OwnEvent(met, c, env.slot)])
  }

  /** The states of a publish: those before it lands, and those of the finishing steps. */
  lemma {:induction false} PublishStates(cfg: Config, w: World, account: Word, chosen: Word, m: Stash,
                                         stashPresent: bool, env: Env, x: World)
    requires x in Publish(cfg, w, account, chosen, m, stashPresent, env).states
    ensures var v := if stashPresent then w.vault else StashMerge(w.vault, account, chosen, m);
            var met, c := StepsChain(w.log, env.others), MergeContent(cfg, w.vault.vaultId, account, chosen, m);
            || x == w || x == w.(vault := v) || x == World(v, met, w.own)
            || (LandIn(met, c, env.slot).Some?
                && var landed := LandedWorld(w, v, c, env);
                   landed.own != w.own && x in Finish(cfg, landed, account, chosen, landed.own[|w.own|]).states)
  {
    var v := if stashPresent then w.vault else StashMerge(w.vault, account, chosen, m);
    var met, c := StepsChain(w.log, env.others), MergeContent(cfg, w.vault.vaultId, account, chosen, m);
    if LandIn(met, c, env.slot).Some? {
      var landed := LandedWorld(w, v, c, env);
      var finish := Finish(cfg, landed, account, chosen, landed.own[|w.own|]);
      assert finish.states[0] in finish.states;
    }
  }

  /** Steps 4 to 12, with the heads and the stash row read before the pull. */
  function AfterPull(cfg: Config, w: World, key: Word, account: Word, chosen: Word, pre: set<Word>,
                     stash: Option<Stash>, env: Env): (r: Run)
    ensures r.states != [] && r.states[0] == w
  {
    var s := w.vault;
    var place := StashMatch(cfg, s, account, chosen, stash);
    if place.Some? then
      var id := MergeId(cfg, s.vaultId, account, chosen, stash.value);
      match ClearFrozen(s, account, id)
      case Err(e) => Run([w], StoreFailed(e))
      case Ok(thawed) =>
        Run([w, w.(vault := thawed), w.(vault := ClearStash(thawed, account, chosen))], AlreadyOnChain(id, place.value))
    else
      var post := Heads(s.graph.rows, account);
      if !(post <= pre) then Run([w], ChainMoved(pre, post))
      else if chosen !in post then Run([w], NotCurrentHead(post))
      else match BuildMerge(s.graph.rows, key, account, chosen, stash, env.sealed)
        case Err(e) => Run([w], StoreFailed(e))
        case Ok(m) => Publish(cfg, w, account, chosen, m, stash.Some?, env)
  }

  /** A dry run neither prunes nor pulls, and stops before the stash. */
  function DryOutcome(cfg: Config, s: VaultState, key: Word, account: Word, chosen: Word, env: Env): Outcome {
    var heads := Heads(s.graph.rows, account);
    if chosen !in heads then NotCurrentHead(heads)
    else match BuildMerge(s.graph.rows, key, account, chosen, Stashed(s, account, chosen), env.sealed)
      case Err(e) => StoreFailed(e)
      case Ok(m) => DryRun(MergeId(cfg, s.vaultId, account, chosen, m))
  }

  /** Steps 2a to 12, with the heads and the stash row read before. */
  function LiveRun(cfg: Config, w: World, key: Word, account: Word, chosen: Word, pre: set<Word>,
                   stash: Option<Stash>, env: Env): (r: Run)
    ensures r.states != []
  {
    var pulled := PullTrace(cfg, w.log, env.faults, Prune(w.vault, account), None, None);
    var before := [w] + InWorld(w, pulled.states);
    if !pulled.ok then Run(before, ChainFailed)
    else
      var rest := AfterPull(cfg, w.(vault := Final(pulled)), key, account, chosen, pre, stash, env);
      Run(before + rest.states, rest.outcome)
  }

  function ResolveRun(cfg: Config, w: World, key: Word, account: Word, chosen: Word, dryRun: bool, env: Env): (r: Run)
    ensures r.states != []
  {
    if account !in w.vault.graph.accounts then Run([w], AccountMissing)
    else if dryRun then Run([w], DryOutcome(cfg, w.vault, key, account, chosen, env))
    else LiveRun(cfg, w, key, account, chosen, Heads(w.vault.graph.rows, account), Stashed(w.vault, account, chosen),
                 env)
  }

  // ---------------------------------------------------------------------
  // The method
  // ---------------------------------------------------------------------

  /** The states of a call that went on from the last of `before`. */
  function Joined(before: seq<World>, rest: Run): (r: Run)
    requires rest.states != []
    ensures r.states != [] && Last(r) == Last(rest)
  {
    Run(before + rest.states, rest.outcome)
  }

  /** A publish that lands and says so goes on with the finishing steps. */
  lemma {:induction false} PublishConfirmed(cfg: Config, w: World, account: Word, chosen: Word, m: Stash,
                                            stashPresent: bool, env: Env)
    requires env.fate.Confirmed?
    requires var c := MergeContent(cfg, w.vault.vaultId, account, chosen, m);
             LandIn(StepsChain(w.log, env.others), c, env.slot).Some?
    ensures var v := if stashPresent then w.vault else StashMerge(w.vault, account, chosen, m);
            var met, c := StepsChain(w.log, env.others), MergeContent(cfg, w.vault.vaultId, account, chosen, m);
            var landed := LandedWorld(w, v, c, env);
            Publish(cfg, w, account, chosen, m, stashPresent, env)
            == Joined([w, w.(vault := v), World(v, met, w.own)],
                      Finish(cfg, landed, account, chosen, landed.own[|w.own|]))
  {
  }

  /** A publish that does not land, or lands without saying so, ends the call. */
  lemma {:induction false} PublishUnconfirmed(cfg: Config, w: World, account: Word, chosen: Word, m: Stash,
                                              stashPresent: bool, env: Env)
    ensures var v := if stashPresent then w.vault else StashMerge(w.vault, account, chosen, m);
            var met, c := StepsChain(w.log, env.others), MergeContent(cfg, w.vault.vaultId, account, chosen, m);
            var before := [w, w.(vault := v), World(v, met, w.own)];
            var landed := LandIn(met, c, env.slot);
            && (env.fate.Lost? || landed.None? ==>
                  Publish(cfg, w, account, chosen, m, stashPresent, env) == Run(before, ChainFailed))
            && (env.fate.LandedUnreported? && landed.Some? ==>
                  Publish(cfg, w, account, chosen, m, stashPresent, env)
                  == Run(before + [LandedWorld(w, v, c, env)], ChainFailed))
  {
  }

  ghost function WorldOf(vault: Vault, net: Network): World
    reads vault, net
  {
    World(vault.View(), net.log, net.own)
  }

  /** The adapter's publish, with what others put on chain before it. */
  method PublishOnChain(net: Network, content: Content, env: Env) returns (r: Option<Anchor>, ghost passed: seq<Log>)
    modifies net`log, net`own
    ensures var met := StepsChain(old(net.log), env.others);
            var landed := LandIn(met, content, env.slot);
            if env.fate.Lost? || landed.None?
            then r == None && net.log == met && net.own == old(net.own) && passed == [met]
            else
              var ev := OwnEvent(met, content, env.slot);
              && net.log == landed.value && net.own == old(net.own) + [ev] && passed == [met, net.log]
              && r == if env.fate.LandedUnreported? then None else Some(ev.anchor)
  {
    var met := StepsChain(net.log, env.others);
    net.log := met;
    passed := [met];
    var landed := LandIn(met, content, env.slot);
    if env.fate.Lost? || landed.None? {
      return None, passed;
    }
    var ev := OwnEvent(met, content, env.slot);
    net.log := landed.value;
    net.own := net.own + [ev];
    passed := [met, net.log];
    return if env.fate.LandedUnreported? then None else Some(ev.anchor), passed;
  }

  method FinishMerge(cfg: Config, vault: Vault, net: Network, account: Word, chosen: Word, content: Content,
                     anchor: Anchor)
    returns (outcome: Outcome, ghost passed: seq<World>)
    modifies vault
    ensures var r := Finish(cfg, old(WorldOf(vault, net)), account, chosen, Event(content, anchor));
            outcome == r.outcome && passed == r.states && WorldOf(vault, net) == Last(r)
  {
    var id := cfg.idOf(content);
    passed := [WorldOf(vault, net)];
    var ingested := vault.IngestChainRevision(cfg.idOf, Event(content, anchor));
    if ingested.Err? {
      return StoreFailed(ingested.error), passed;
    }
    passed := passed + [WorldOf(vault, net)];
    var thawed := vault.ClearFrozenFlag(account, id);
    if thawed.Err? {
      return StoreFailed(thawed.error), passed;
    }
    passed := passed + [WorldOf(vault, net)];
    vault.ClearPendingMerge(account, chosen);
    passed := passed + [WorldOf(vault, net)];
    var _ := vault.AdvanceLastPulledBlock(anchor.block);
    passed := passed + [WorldOf(vault, net)];
    return Published(id, anchor), passed;
  }

  method PublishMerge(cfg: Config, vault: Vault, net: Network, account: Word, chosen: Word, m: Stash,
                      stashPresent: bool, env: Env)
    returns (outcome: Outcome, ghost passed: seq<World>)
    modifies vault, net`log, net`own
    ensures var r := Publish(cfg, old(WorldOf(vault, net)), account, chosen, m, stashPresent, env);
            outcome == r.outcome && passed == r.states && WorldOf(vault, net) == Last(r)
  {
    ghost var w := WorldOf(vault, net);
    if !stashPresent {
      vault.StashPendingMerge(account, chosen, m);
    }
    ghost var stashed := WorldOf(vault, net);
    var content := MergeContent(cfg, vault.vaultId, account, chosen, m);
    var anchor, logs := PublishOnChain(net, content, env);
    passed := [w, stashed, stashed.(log := logs[0])];
    if anchor.None? {
      PublishUnconfirmed(cfg, w, account, chosen, m, stashPresent, env);
      if |logs| == 2 {
        passed := passed + [WorldOf(vault, net)];
      }
      return ChainFailed, passed;
    }
    PublishConfirmed(cfg, w, account, chosen, m, stashPresent, env);
    var result, rest := FinishMerge(cfg, vault, net, account, chosen, content, anchor.value);
    return result, passed + rest;
  }

  /** Steps 4 to 12. */
  method ResolveAfterPull(cfg: Config, vault: Vault, net: Network, key: Word, account: Word, chosen: Word,
                          pre: set<Word>, stash: Option<Stash>, env: Env)
    returns (outcome: Outcome, ghost passed: seq<World>)
    modifies vault, net`log, net`own
    ensures var r := AfterPull(cfg, old(WorldOf(vault, net)), key, account, chosen, pre, stash, env);
            outcome == r.outcome && passed == r.states && WorldOf(vault, net) == Last(r)
  {
    passed := [WorldOf(vault, net)];
    if stash.Some? {
      var canonical := MergeId(cfg, vault.vaultId, account, chosen, stash.value);
      var row := FindRow(vault.rows, account, canonical);
      if row.Some? && row.value.place.Some? {
        var thawed := vault.ClearFrozenFlag(account, canonical);
        if thawed.Err? {
          return StoreFailed(thawed.error), passed;
        }
        passed := passed + [WorldOf(vault, net)];
        vault.ClearPendingMerge(account, chosen);
        passed := passed + [WorldOf(vault, net)];
        return AlreadyOnChain(canonical, row.value.place.value), passed;
      }
    }
    var post := Heads(vault.rows, account);
    if exists h :: h in post && h !in pre {
      return ChainMoved(pre, post), passed;
    }
    if chosen !in post {
      return NotCurrentHead(post), passed;
    }
    var m := BuildMerge(vault.rows, key, account, chosen, stash, env.sealed);
    if m.Err? {
      return StoreFailed(m.error), passed;
    }
    outcome, passed := PublishMerge(cfg, vault, net, account, chosen, m.value, stash.Some?, env);
  }

  /** Steps 2a to 12. */
  method ResolveLive(cfg: Config, vault: Vault, net: Network, key: Word, account: Word, chosen: Word, pre: set<Word>,
                     stash: Option<Stash>, env: Env)
    returns (outcome: Outcome, ghost passed: seq<World>)
    requires net.calls == 0 && net.faults == env.faults
    modifies vault, net
    ensures var r := LiveRun(cfg, old(WorldOf(vault, net)), key, account, chosen, pre, stash, env);
            outcome == r.outcome && passed == r.states && WorldOf(vault, net) == Last(r)
  {
    ghost var start := WorldOf(vault, net);
    var _ := vault.PruneOrphanPendingMerges(account);
    var report, states := PullAll(cfg, vault, net, None, None);
    passed := [start] + InWorld(start, states);
    if report.Err? {
      return ChainFailed, passed;
    }
    ghost var pulled := WorldOf(vault, net);
    assert LiveRun(cfg, start, key, account, chosen, pre, stash, env)
        == Joined(passed, AfterPull(cfg, pulled, key, account, chosen, pre, stash, env));
    var result, rest := ResolveAfterPull(cfg, vault, net, key, account, chosen, pre, stash, env);
    return result, passed + rest;
  }

  /** Nothing is committed by a dry run. */
  method ResolveDry(cfg: Config, vault: Vault, key: Word, account: Word, chosen: Word, stash: Option<Stash>, env: Env)
    returns (outcome: Outcome)
    requires stash == Stashed(vault.View(), account, chosen)
    ensures outcome == DryOutcome(cfg, vault.View(), key, account, chosen, env)
  {
    var heads := Heads(vault.rows, account);
    if chosen !in heads {
      return NotCurrentHead(heads);
    }
    var m := BuildMerge(vault.rows, key, account, chosen, stash, env.sealed);
    if m.Err? {
      return StoreFailed(m.error);
    }
    return DryRun(MergeId(cfg, vault.vaultId, account, chosen, m.value));
  }

  method ResolveOne(cfg: Config, vault: Vault, net: Network, key: Word, account: Word, chosen: Word, dryRun: bool,
                    env: Env)
    returns (outcome: Outcome, ghost passed: seq<World>)
    requires net.calls == 0 && net.faults == env.faults
    modifies vault, net
    ensures var r := ResolveRun(cfg, old(WorldOf(vault, net)), key, account, chosen, dryRun, env);
            outcome == r.outcome && passed == r.states && WorldOf(vault, net) == Last(r)
  {
    var pre := vault.AccountHeads(account);
    if pre.Err? {
      return AccountMissing, [WorldOf(vault, net)];
    }
    var stash := if (account, chosen) in vault.stash then Some(vault.stash[(account, chosen)]) else None;
    if dryRun {
      outcome := ResolveDry(cfg, vault, key, account, chosen, stash, env);
      return outcome, [WorldOf(vault, net)];
    }
    outcome, passed := ResolveLive(cfg, vault, net, key, account, chosen, pre.value, stash, env);
  }
}
