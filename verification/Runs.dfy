/**
 Whole runs: resolve calls and pulls with any overrides, killed anywhere, with publishes that land
 unreported and with other devices publishing at any time. This device puts at most one merge on
 chain for an account and a chosen head, unless a pull has skipped the first.
 */
module Runs {
  import opened Bytes
  import opened Signing
  import opened ChainLog
  import opened Store
  import opened Pulls
  import opened Resolve

  /** One step of a run; a call is killed after `cut` committed states, if it has that many. */
  datatype Step =
    | OnChain(step: ChainStep)
    | PullCall(faults: set<nat>, fromOverride: Option<u64>, untilOverride: Option<u64>, cut: nat)
    | ResolveCall(key: Word, account: Word, chosen: Word, dryRun: bool, env: Env, cut: nat)

  function CutWorld(states: seq<World>, cut: nat): (w: World)
    requires states != []
    ensures w in states
  {
    states[Min(cut, |states| - 1)]
  }

  function PullStates(cfg: Config, w: World, faults: set<nat>, fromOverride: Option<u64>, untilOverride: Option<u64>):
    (ws: seq<World>)
    ensures ws != []
  {
    InWorld(w, PullTrace(cfg, w.log, faults, w.vault, fromOverride, untilOverride).states)
  }

  function Do(cfg: Config, w: World, step: Step): World {
    match step
    case OnChain(s) => w.(log := StepChain(w.log, s))
    case PullCall(faults, fromOverride, untilOverride, cut) =>
      CutWorld(PullStates(cfg, w, faults, fromOverride, untilOverride), cut)
    case ResolveCall(key, account, chosen, dryRun, env, cut) =>
      CutWorld(ResolveRun(cfg, w, key, account, chosen, dryRun, env).states, cut)
  }

  function DoAll(cfg: Config, w: World, steps: seq<Step>): World
    decreases |steps|
  {
    if steps == [] then w else DoAll(cfg, Do(cfg, w, steps[0]), steps[1..])
  }

  // ---------------------------------------------------------------------
  // The invariant
  // ---------------------------------------------------------------------

  /** The row's place is that of a log event with the same account, parent and payload. */
  ghost predicate RootedAt(r: Row, e: Event) {
    r.place == Some(PlaceOf(e.anchor)) && e.content.account == r.content.account
    && e.content.parent == r.content.parent && e.content.payload == r.content.payload
  }

  /** Anchored rows stand for log events. */
  ghost predicate Rooted(rows: seq<Row>, events: seq<Event>) {
    forall r :: r in rows && r.place.Some? ==> exists e :: e in events && RootedAt(r, e)
  }

  /** A vault and a chain that belong together; any revision graph whose anchored rows are on chain will do. */
  ghost predicate Based(w: World) {
    WellFormed(w.log) && Rooted(w.vault.graph.rows, w.log.events)
  }

  /** ... and the checkpoint is not above the height. */
  ghost predicate Sane(w: World) {
    Based(w) && w.vault.checkpoint <= w.log.nextBlock
  }

  /** A row sits under the canonical id of a log event with another account or parent: a hash clash. */
  ghost predicate ClashOf(cfg: Config, r: Row, e: Event) {
    r.id == cfg.idOf(e.content) && (r.content.account != e.content.account || r.content.parent != e.content.parent)
  }

  ghost predicate Clash(cfg: Config, w: World) {
    exists r, e :: r in w.vault.graph.rows && e in w.log.events && ClashOf(cfg, r, e)
  }

  /** No two of the device's events merge the same account on top of the same revision. */
  ghost predicate OncePerHead(own: seq<Event>) {
    forall i, j :: 0 <= i < j < |own| ==>
      own[i].content.account != own[j].content.account || own[i].content.parent != own[j].content.parent
  }

  ghost predicate Inv(cfg: Config, w: World) {
    && Based(w)
    && (forall e :: e in w.own ==> e in w.log.events && e.content.vault == w.vault.vaultId)
    && (OncePerHead(w.own) || Clash(cfg, w))
  }

  predicate Merges(e: Event, account: Word, chosen: Word) {
    e.content.account == account && e.content.parent == chosen
  }

  /** No own merge of the account's revision `chosen` is skipped. */
  ghost predicate SparesMerge(cfg: Config, w: World, account: Word, chosen: Word) {
    forall e :: e in w.own && Merges(e, account, chosen) ==> !Skips(cfg, w.vault, e)
  }

  /** No call of the run is a resolve for a revision whose own merge is skipped when the call is made. */
  ghost predicate SparesMerges(cfg: Config, w: World, steps: seq<Step>)
    decreases |steps|
  {
    steps != [] ==>
      && (steps[0].ResolveCall? ==> SparesMerge(cfg, w, steps[0].account, steps[0].chosen))
      && SparesMerges(cfg, Do(cfg, w, steps[0]), steps[1..])
  }

  /** A pull neither from above the checkpoint nor up to a block above the height. */
  predicate Guarded(w: World, step: Step) {
    step.PullCall? ==>
      && step.fromOverride.GetOr(w.vault.checkpoint) <= w.vault.checkpoint
      && step.untilOverride.GetOr(w.log.nextBlock) <= w.log.nextBlock
  }

  ghost predicate AllGuarded(cfg: Config, w: World, steps: seq<Step>)
    decreases |steps|
  {
    steps != [] ==> Guarded(w, steps[0]) && AllGuarded(cfg, Do(cfg, w, steps[0]), steps[1..])
  }

  // ---------------------------------------------------------------------
  // Growing logs and vaults keep it
  // ---------------------------------------------------------------------

  ghost predicate LogGrows(a: Log, b: Log) {
    a.events <= b.events && a.nextBlock <= b.nextBlock && WellFormed(b)
  }

  lemma {:induction false} StepGrows(l: Log, step: ChainStep)
    requires WellFormed(l)
    ensures LogGrows(l, StepChain(l, step))
  {
  }

  lemma {:induction false} StepsGrow(l: Log, steps: seq<ChainStep>)
    requires WellFormed(l)
    ensures LogGrows(l, StepsChain(l, steps))
    decreases |steps|
  {
    if steps != [] {
      StepGrows(l, steps[0]);
      StepsGrow(StepChain(l, steps[0]), steps[1..]);
    }
  }

  lemma {:induction false} ClashKept(cfg: Config, w: World, w': World)
    requires Clash(cfg, w) && Grows(w.vault.graph.rows, w'.vault.graph.rows) && w.log.events <= w'.log.events
    ensures Clash(cfg, w')
  {
    var r, e :| r in w.vault.graph.rows && e in w.log.events && ClashOf(cfg, r, e);
    var r' := GrowsKeeps(w.vault.graph.rows, w'.vault.graph.rows, r);
    assert r' in w'.vault.graph.rows && e in w'.log.events && ClashOf(cfg, r', e);
  }

  lemma {:induction false} RootedInLongerLog(rows: seq<Row>, events: seq<Event>, events': seq<Event>)
    requires Rooted(rows, events) && events <= events'
    ensures Rooted(rows, events')
  {
  }

  lemma {:induction false} InvWithLog(cfg: Config, w: World, log: Log)
    requires Inv(cfg, w) && LogGrows(w.log, log)
    ensures Inv(cfg, w.(log := log))
  {
    RootedInLongerLog(w.vault.graph.rows, w.log.events, log.events);
    if Clash(cfg, w) {
      assert Grows(w.vault.graph.rows, w.vault.graph.rows);
      ClashKept(cfg, w, w.(log := log));
    }
  }

  /** Checkpoint, freeze flags, head pointers and stash rows do not matter to it. */
  lemma {:induction false} InvWithVault(cfg: Config, w: World, v: VaultState)
    requires Inv(cfg, w) && v.vaultId == w.vault.vaultId
    requires Grows(w.vault.graph.rows, v.graph.rows) && Rooted(v.graph.rows, w.log.events)
    ensures Inv(cfg, w.(vault := v))
  {
    if Clash(cfg, w) {
      ClashKept(cfg, w, w.(vault := v));
    }
  }

  // ---------------------------------------------------------------------
  // Ingest and pull keep it
  // ---------------------------------------------------------------------

  lemma {:induction false} IngestStaysRooted(idOf: IdOf, g: Graph, ev: Event, events: seq<Event>)
    requires Rooted(g.rows, events) && ev in events && Ingest(idOf, g, ev).Ok?
    ensures Rooted(Ingest(idOf, g, ev).value.graph.rows, events)
  {
  }

  lemma {:induction false} RootedIsStable(cfg: Config, events: seq<Event>, vault: Word)
    ensures Stable(cfg, events, vault, -1, rows => Rooted(rows, events))
  {
  }

  /** Every state of a pull keeps the invariant, whatever its overrides. */
  lemma {:induction false} PullKeepsInv(cfg: Config, w: World, faults: set<nat>, fromOverride: Option<u64>,
                                        untilOverride: Option<u64>)
    requires Inv(cfg, w)
    ensures forall x :: x in PullTrace(cfg, w.log, faults, w.vault, fromOverride, untilOverride).states ==>
              Inv(cfg, w.(vault := x))
  {
    var t := PullTrace(cfg, w.log, faults, w.vault, fromOverride, untilOverride);
    var start, head := fromOverride.GetOr(w.vault.checkpoint), untilOverride.GetOr(w.log.nextBlock);
    PullLoopFollows(cfg, w.log.events, faults, w.vault, start, head, [], 1);
    RootedIsStable(cfg, w.log.events, w.vault.vaultId);
    PullPreserves(cfg, w.log.events, faults, w.vault, start, head, [], 1, -1, rows => Rooted(rows, w.log.events));
    assert Grows(w.vault.graph.rows, w.vault.graph.rows);
    forall x | x in t.states ensures Inv(cfg, w.(vault := x)) {
      InvWithVault(cfg, w, x);
    }
  }

  /** A pull, killed or not, leaves one of its trace's states. */
  lemma {:induction false} PullCallLeaves(cfg: Config, w: World, step: Step) returns (s: VaultState)
    requires step.PullCall?
    ensures s in PullTrace(cfg, w.log, step.faults, w.vault, step.fromOverride, step.untilOverride).states
    ensures Do(cfg, w, step) == w.(vault := s)
  {
    var states := PullTrace(cfg, w.log, step.faults, w.vault, step.fromOverride, step.untilOverride).states;
    s := states[Min(step.cut, |states| - 1)];
  }

  // ---------------------------------------------------------------------
  // Resolve keeps it
  // ---------------------------------------------------------------------

  /** A log event that the vault recognises has a row with its account and parent, unless ids clash. */
  lemma {:induction false} KnownDemotesItsParent(cfg: Config, rows: seq<Row>, l: Log, e: Event)
    requires WellFormed(l) && Rooted(rows, l.events) && e in l.events && Known(cfg.idOf, rows, e)
    ensures HasChild(rows, e.content.account, e.content.parent) || exists r :: r in rows && ClashOf(cfg, r, e)
  {
  }

  lemma {:induction false} LandGrows(l: Log, c: Content, slot: Slot)
    requires WellFormed(l) && LandIn(l, c, slot).Some?
    ensures LogGrows(l, LandIn(l, c, slot).value)
  {
  }

  lemma {:induction false} NotAHeadWithChild(rows: seq<Row>, account: Word, id: Word)
    requires HasChild(rows, account, id)
    ensures id !in Heads(rows, account)
  {
  }

  /** A head that is merged already by a known own event: ids clash. */
  lemma {:induction false} KnownMergeOnAHead(cfg: Config, w: World, e: Event, account: Word, chosen: Word)
    requires Based(w) && e in w.log.events && Merges(e, account, chosen)
    requires Known(cfg.idOf, w.vault.graph.rows, e) && chosen in Heads(w.vault.graph.rows, account)
    ensures Clash(cfg, w)
  {
    KnownDemotesItsParent(cfg, w.vault.graph.rows, w.log, e);
    if HasChild(w.vault.graph.rows, account, chosen) {
      NotAHeadWithChild(w.vault.graph.rows, account, chosen);
    }
  }

  /** The known own merges of a revision. */
  ghost predicate KnowsMerges(cfg: Config, w: World, account: Word, chosen: Word) {
    forall e :: e in w.own && Merges(e, account, chosen) ==> Known(cfg.idOf, w.vault.graph.rows, e)
  }

  /** Landing a merge on a current head, all own merges of it being known, is the first merge of that head. */
  lemma {:induction false} LandingKeepsInv(cfg: Config, w: World, content: Content, slot: Slot)
    requires Inv(cfg, w) && LandIn(w.log, content, slot).Some? && content.vault == w.vault.vaultId
    requires content.parent in Heads(w.vault.graph.rows, content.account)
    requires KnowsMerges(cfg, w, content.account, content.parent)
    ensures Inv(cfg, World(w.vault, LandIn(w.log, content, slot).value, w.own + [OwnEvent(w.log, content, slot)]))
  {
    var landed := LandIn(w.log, content, slot).value;
    var w' := World(w.vault, landed, w.own + [OwnEvent(w.log, content, slot)]);
    LandGrows(w.log, content, slot);
    InvWithLog(cfg, w, landed);
    assert Grows(w.vault.graph.rows, w.vault.graph.rows);
    if Clash(cfg, w) {
      ClashKept(cfg, w, w');
    } else {
      forall i | 0 <= i < |w.own| ensures !Merges(w.own[i], content.account, content.parent) {
        assert w.own[i] in w.own;
        if Merges(w.own[i], content.account, content.parent) {
          KnownMergeOnAHead(cfg, w, w.own[i], content.account, content.parent);
        }
      }
    }
  }

  lemma {:induction false} FinishKeepsInv(cfg: Config, w: World, account: Word, chosen: Word, ev: Event)
    requires Inv(cfg, w) && ev in w.log.events
    ensures forall x :: x in Finish(cfg, w, account, chosen, ev).states ==> Inv(cfg, x)
  {
    var step := Ingest(cfg.idOf, w.vault.graph, ev);
    if step.Ok? {
      IngestMakesKnown(cfg.idOf, w.vault.graph, ev);
      IngestStaysRooted(cfg.idOf, w.vault.graph, ev, w.log.events);
      forall v: VaultState | v.vaultId == w.vault.vaultId && v.graph.rows == step.value.graph.rows
        ensures Inv(cfg, w.(vault := v))
      {
        InvWithVault(cfg, w, v);
      }
    }
  }

  lemma {:induction false} PublishKeepsInv(cfg: Config, w: World, account: Word, chosen: Word, m: Stash,
                                           stashPresent: bool, env: Env)
    requires Inv(cfg, w) && chosen in Heads(w.vault.graph.rows, account) && KnowsMerges(cfg, w, account, chosen)
    ensures forall x :: x in Publish(cfg, w, account, chosen, m, stashPresent, env).states ==> Inv(cfg, x)
  {
    var stashed := w.(vault := if stashPresent then w.vault else StashMerge(w.vault, account, chosen, m));
    InvWithVault(cfg, w, stashed.vault);
    StepsGrow(w.log, env.others);
    var met := stashed.(log := StepsChain(w.log, env.others));
    InvWithLog(cfg, stashed, met.log);
    var content := MergeContent(cfg, w.vault.vaultId, account, chosen, m);
    if LandIn(met.log, content, env.slot).Some? {
      var landed := LandedWorld(w, stashed.vault, content, env);
      LandingKeepsInv(cfg, met, content, env.slot);
      FinishKeepsInv(cfg, landed, account, chosen, landed.own[|w.own|]);
    }
    forall x | x in Publish(cfg, w, account, chosen, m, stashPresent, env).states ensures Inv(cfg, x) {
      PublishStates(cfg, w, account, chosen, m, stashPresent, env, x);
    }
  }

  lemma {:induction false} AfterPullKeepsInv(cfg: Config, w: World, key: Word, account: Word, chosen: Word,
                                             pre: set<Word>, stash: Option<Stash>, env: Env)
    requires Inv(cfg, w) && KnowsMerges(cfg, w, account, chosen)
    ensures forall x :: x in AfterPull(cfg, w, key, account, chosen, pre, stash, env).states ==> Inv(cfg, x)
  {
    var s := w.vault;
    var place := StashMatch(cfg, s, account, chosen, stash);
    if place.Some? {
      var id := MergeId(cfg, s.vaultId, account, chosen, stash.value);
      if ClearFrozen(s, account, id).Ok? {
        var thawed := ClearFrozen(s, account, id).value;
        InvWithVault(cfg, w, thawed);
        InvWithVault(cfg, w, ClearStash(thawed, account, chosen));
      }
    } else if chosen in Heads(s.graph.rows, account) {
      var m := BuildMerge(s.graph.rows, key, account, chosen, stash, env.sealed);
      if m.Ok? {
        PublishKeepsInv(cfg, w, account, chosen, m.value, stash.Some?, env);
      }
    }
  }

  /** After an Ok default pull the own merges of a revision are known, if none was skipped before. */
  lemma {:induction false} PulledKnowsMerges(cfg: Config, w: World, s: VaultState, faults: set<nat>,
                                             account: Word, chosen: Word)
    requires Inv(cfg, w.(vault := s)) && SparesMerge(cfg, w.(vault := s), account, chosen)
    requires PullTrace(cfg, w.log, faults, s, None, None).ok
    ensures KnowsMerges(cfg, w.(vault := Final(PullTrace(cfg, w.log, faults, s, None, None))), account, chosen)
  {
    var x := Final(PullTrace(cfg, w.log, faults, s, None, None));
    forall e | e in w.own && Merges(e, account, chosen) ensures Known(cfg.idOf, x.graph.rows, e) {
      var i :| 0 <= i < |w.log.events| && w.log.events[i] == e;
      DefaultPullKnows(cfg, w.log, faults, s, e);
    }
  }

  lemma {:induction false} ResolveKeepsInv(cfg: Config, w: World, key: Word, account: Word, chosen: Word,
                                           dryRun: bool, env: Env)
    requires Inv(cfg, w) && SparesMerge(cfg, w, account, chosen)
    ensures forall x :: x in ResolveRun(cfg, w, key, account, chosen, dryRun, env).states ==> Inv(cfg, x)
  {
    if account in w.vault.graph.accounts && !dryRun {
      var pruned := w.(vault := Prune(w.vault, account));
      InvWithVault(cfg, w, pruned.vault);
      PullKeepsInv(cfg, pruned, env.faults, None, None);
      var pulled := PullTrace(cfg, w.log, env.faults, pruned.vault, None, None);
      forall x | x in InWorld(w, pulled.states) ensures Inv(cfg, x) {
        var i :| 0 <= i < |pulled.states| && x == w.(vault := pulled.states[i]);
        assert x == pruned.(vault := pulled.states[i]);
      }
      if pulled.ok {
        var after := w.(vault := Final(pulled));
        assert after == pruned.(vault := Final(pulled)) && Final(pulled) in pulled.states;
        PulledKnowsMerges(cfg, w, pruned.vault, env.faults, account, chosen);
        AfterPullKeepsInv(cfg, after, key, account, chosen,
                          Heads(w.vault.graph.rows, account), Stashed(w.vault, account, chosen), env);
      }
    }
  }

  lemma {:induction false} StepKeepsInv(cfg: Config, w: World, step: Step)
    requires Inv(cfg, w) && (step.ResolveCall? ==> SparesMerge(cfg, w, step.account, step.chosen))
    ensures Inv(cfg, Do(cfg, w, step))
  {
    match step {
      case OnChain(s) =>
        StepGrows(w.log, s);
        InvWithLog(cfg, w, StepChain(w.log, s));
      case PullCall(faults, fromOverride, untilOverride, cut) =>
        PullKeepsInv(cfg, w, faults, fromOverride, untilOverride);
        var s := PullCallLeaves(cfg, w, step);
      case ResolveCall(key, account, chosen, dryRun, env, cut) =>
        ResolveKeepsInv(cfg, w, key, account, chosen, dryRun, env);
    }
  }

  lemma {:induction false} RunKeepsInv(cfg: Config, w: World, steps: seq<Step>)
    requires Inv(cfg, w) && SparesMerges(cfg, w, steps)
    ensures Inv(cfg, DoAll(cfg, w, steps))
    decreases |steps|
  {
    if steps != [] {
      StepKeepsInv(cfg, w, steps[0]);
      RunKeepsInv(cfg, Do(cfg, w, steps[0]), steps[1..]);
    }
  }

  /**
   At most one merge per account and chosen head in every run in which no resolve is called for a
   revision while an own merge of it is skipped, whatever overrides the pulls have; or the vault has
   stored a row under the canonical id of an event with another account or parent.
   */
  lemma {:induction false} AtMostOneUnlessSkipped(cfg: Config, w: World, steps: seq<Step>)
    requires Based(w) && w.own == [] && SparesMerges(cfg, w, steps)
    ensures OncePerHead(DoAll(cfg, w, steps).own) || Clash(cfg, DoAll(cfg, w, steps))
  {
    RunKeepsInv(cfg, w, steps);
  }

  // ---------------------------------------------------------------------
  // Guarded pulls skip nothing of this device's
  // ---------------------------------------------------------------------

  /** The checkpoint is not above the height and has skipped no own event. */
  ghost predicate UpToDate(cfg: Config, w: World) {
    && Sane(w)
    && forall e :: e in w.own ==> e in w.log.events && e.content.vault == w.vault.vaultId && !Skips(cfg, w.vault, e)
  }

  lemma {:induction false} UpToDateWithVault(cfg: Config, w: World, v: VaultState)
    requires UpToDate(cfg, w) && v.vaultId == w.vault.vaultId && v.checkpoint == w.vault.checkpoint
    requires Grows(w.vault.graph.rows, v.graph.rows) && Rooted(v.graph.rows, w.log.events)
    ensures UpToDate(cfg, w.(vault := v))
  {
    forall e | e in w.own ensures !Skips(cfg, v, e) {
      SparedLater(cfg, w.vault, v, e);
    }
  }

  lemma {:induction false} PullStaysUpToDate(cfg: Config, w: World, s: VaultState, faults: set<nat>,
                                             fromOverride: Option<u64>, untilOverride: Option<u64>)
    requires UpToDate(cfg, w.(vault := s)) && fromOverride.GetOr(s.checkpoint) <= s.checkpoint
    requires untilOverride.GetOr(w.log.nextBlock) <= w.log.nextBlock
    ensures forall x :: x in PullTrace(cfg, w.log, faults, s, fromOverride, untilOverride).states ==>
              UpToDate(cfg, w.(vault := x))
  {
    var t := PullTrace(cfg, w.log, faults, s, fromOverride, untilOverride);
    var start, head := fromOverride.GetOr(s.checkpoint), untilOverride.GetOr(w.log.nextBlock);
    PullLoopFollows(cfg, w.log.events, faults, s, start, head, [], 1);
    RootedIsStable(cfg, w.log.events, s.vaultId);
    PullPreserves(cfg, w.log.events, faults, s, start, head, [], 1, -1, rows => Rooted(rows, w.log.events));
    forall x | x in t.states ensures UpToDate(cfg, w.(vault := x)) {
      forall e | e in w.own ensures !Skips(cfg, x, e) {
        PullLoopSpares(cfg, w.log.events, faults, s, start, head, [], 1, e);
      }
    }
  }

  /** All own events are known: the checkpoint may be anywhere up to the height. */
  lemma {:induction false} KnownIsUpToDate(cfg: Config, w: World, v: VaultState)
    requires Based(w.(vault := v)) && v.checkpoint <= w.log.nextBlock
    requires forall e :: e in w.own ==>
               e in w.log.events && e.content.vault == v.vaultId && Known(cfg.idOf, v.graph.rows, e)
    ensures UpToDate(cfg, w.(vault := v))
  {
  }

  lemma {:induction false} FinishStaysUpToDate(cfg: Config, w: World, account: Word, chosen: Word, ev: Event)
    requires UpToDate(cfg, w) && ev in w.log.events
    requires forall e :: e in w.own && e != ev ==> Known(cfg.idOf, w.vault.graph.rows, e)
    ensures forall x :: x in Finish(cfg, w, account, chosen, ev).states ==> UpToDate(cfg, x)
  {
    var step := Ingest(cfg.idOf, w.vault.graph, ev);
    if step.Ok? {
      var rows := step.value.graph.rows;
      IngestMakesKnown(cfg.idOf, w.vault.graph, ev);
      IngestStaysRooted(cfg.idOf, w.vault.graph, ev, w.log.events);
      forall e | e in w.own ensures Known(cfg.idOf, rows, e) {
        if e != ev {
          GrowsKeepsKnown(cfg.idOf, w.vault.graph.rows, rows, e);
        }
      }
      forall v: VaultState | v.vaultId == w.vault.vaultId && v.graph.rows == rows && v.checkpoint <= w.log.nextBlock
        ensures UpToDate(cfg, w.(vault := v))
      {
        KnownIsUpToDate(cfg, w, v);
      }
    }
  }

  lemma {:induction false} LogStaysUpToDate(cfg: Config, w: World, log: Log)
    requires UpToDate(cfg, w) && LogGrows(w.log, log)
    ensures UpToDate(cfg, w.(log := log))
  {
    RootedInLongerLog(w.vault.graph.rows, w.log.events, log.events);
  }

  /** Another own event lands, above the checkpoint. */
  lemma {:induction false} LandingStaysUpToDate(cfg: Config, w: World, v: VaultState, c: Content, env: Env)
    requires UpToDate(cfg, w.(vault := v)) && c.vault == v.vaultId
    requires LandIn(StepsChain(w.log, env.others), c, env.slot).Some?
    ensures UpToDate(cfg, LandedWorld(w, v, c, env))
  {
    var met := StepsChain(w.log, env.others);
    StepsGrow(w.log, env.others);
    LandGrows(met, c, env.slot);
    LogStaysUpToDate(cfg, w.(vault := v), LandedWorld(w, v, c, env).log);
  }

  lemma {:induction false} PublishStaysUpToDate(cfg: Config, w: World, account: Word, chosen: Word, m: Stash,
                                                stashPresent: bool, env: Env)
    requires UpToDate(cfg, w) && forall e :: e in w.own ==> Known(cfg.idOf, w.vault.graph.rows, e)
    ensures forall x :: x in Publish(cfg, w, account, chosen, m, stashPresent, env).states ==> UpToDate(cfg, x)
  {
    var v := if stashPresent then w.vault else StashMerge(w.vault, account, chosen, m);
    var met, c := StepsChain(w.log, env.others), MergeContent(cfg, w.vault.vaultId, account, chosen, m);
    UpToDateWithVault(cfg, w, v);
    StepsGrow(w.log, env.others);
    LogStaysUpToDate(cfg, w.(vault := v), met);
    if LandIn(met, c, env.slot).Some? {
      var landed := LandedWorld(w, v, c, env);
      LandingStaysUpToDate(cfg, w, v, c, env);
      FinishStaysUpToDate(cfg, landed, account, chosen, landed.own[|w.own|]);
    }
    forall x | x in Publish(cfg, w, account, chosen, m, stashPresent, env).states ensures UpToDate(cfg, x) {
      PublishStates(cfg, w, account, chosen, m, stashPresent, env, x);
    }
  }

  lemma {:induction false} AfterPullStaysUpToDate(cfg: Config, w: World, key: Word, account: Word, chosen: Word,
                                                  pre: set<Word>, stash: Option<Stash>, env: Env)
    requires UpToDate(cfg, w) && forall e :: e in w.own ==> Known(cfg.idOf, w.vault.graph.rows, e)
    ensures forall x :: x in AfterPull(cfg, w, key, account, chosen, pre, stash, env).states ==> UpToDate(cfg, x)
  {
    var m := BuildMerge(w.vault.graph.rows, key, account, chosen, stash, env.sealed);
    if m.Ok? {
      PublishStaysUpToDate(cfg, w, account, chosen, m.value, stash.Some?, env);
    }
  }

  lemma {:induction false} ResolveStaysUpToDate(cfg: Config, w: World, key: Word, account: Word, chosen: Word,
                                                dryRun: bool, env: Env)
    requires UpToDate(cfg, w)
    ensures forall x :: x in ResolveRun(cfg, w, key, account, chosen, dryRun, env).states ==> UpToDate(cfg, x)
  {
    if account in w.vault.graph.accounts && !dryRun {
      var pruned := Prune(w.vault, account);
      UpToDateWithVault(cfg, w, pruned);
      PullStaysUpToDate(cfg, w, pruned, env.faults, None, None);
      var pulled := PullTrace(cfg, w.log, env.faults, pruned, None, None);
      forall x | x in InWorld(w, pulled.states) ensures UpToDate(cfg, x) {
        var i :| 0 <= i < |pulled.states| && x == w.(vault := pulled.states[i]);
      }
      if pulled.ok {
        var after := w.(vault := Final(pulled));
        assert Final(pulled) in pulled.states;
        forall e | e in w.own ensures Known(cfg.idOf, Final(pulled).graph.rows, e) {
          var i :| 0 <= i < |w.log.events| && w.log.events[i] == e;
          DefaultPullKnows(cfg, w.log, env.faults, pruned, e);
        }
        AfterPullStaysUpToDate(cfg, after, key, account, chosen,
                               Heads(w.vault.graph.rows, account), Stashed(w.vault, account, chosen), env);
      }
    }
  }

  lemma {:induction false} StepStaysUpToDate(cfg: Config, w: World, step: Step)
    requires UpToDate(cfg, w) && Guarded(w, step)
    ensures UpToDate(cfg, Do(cfg, w, step))
  {
    match step {
      case OnChain(s) =>
        StepGrows(w.log, s);
        RootedInLongerLog(w.vault.graph.rows, w.log.events, StepChain(w.log, s).events);
      case PullCall(faults, fromOverride, untilOverride, cut) =>
        PullStaysUpToDate(cfg, w, w.vault, faults, fromOverride, untilOverride);
        var s := PullCallLeaves(cfg, w, step);
      case ResolveCall(key, account, chosen, dryRun, env, cut) =>
        ResolveStaysUpToDate(cfg, w, key, account, chosen, dryRun, env);
    }
  }

  /** A run of guarded pulls spares every own merge. */
  lemma {:induction false} GuardedRunsSpareMerges(cfg: Config, w: World, steps: seq<Step>)
    requires UpToDate(cfg, w) && AllGuarded(cfg, w, steps)
    ensures SparesMerges(cfg, w, steps) && UpToDate(cfg, DoAll(cfg, w, steps))
    decreases |steps|
  {
    if steps != [] {
      StepStaysUpToDate(cfg, w, steps[0]);
      GuardedRunsSpareMerges(cfg, Do(cfg, w, steps[0]), steps[1..]);
    }
  }

  /**
   At most one merge per account and chosen head in every run whose pulls do not start above the
   checkpoint or end above the height, default pulls among them; or ids clash.
   */
  lemma {:induction false} AtMostOneMergePerHead(cfg: Config, w: World, steps: seq<Step>)
    requires Sane(w) && w.own == [] && AllGuarded(cfg, w, steps)
    ensures OncePerHead(DoAll(cfg, w, steps).own) || Clash(cfg, DoAll(cfg, w, steps))
  {
    GuardedRunsSpareMerges(cfg, w, steps);
    AtMostOneUnlessSkipped(cfg, w, steps);
  }

  /** Such a clash, for a row stored under its own canonical hash, is a collision of the digest. */
  lemma {:induction false} ClashIsCollision(k: Hash, r: Row, e: Event) returns (x: Bytes, y: Bytes)
    requires r.id == CanonicalHash(k, r.content) == CanonicalHash(k, e.content)
    requires r.content.account != e.content.account || r.content.parent != e.content.parent
    ensures x in Preimages(k, r.content) && y in Preimages(k, e.content) && x != y && k(x) == k(y)
  {
    x, y := CanonicalHashBinds(k, r.content, e.content);
  }
}
