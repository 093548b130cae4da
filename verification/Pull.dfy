/**
 `pull_all`: the chunked ingest of chain events with a checkpoint per chunk. Every call is described
 by the vault states it passes through, one per committed transaction, so that a kill at any point
 leaves one of them.
 */
module Pulls {
  import opened Bytes
  import opened Signing
  import opened ChainLog
  import opened Store

  const PULL_CHUNK_SIZE := 8_000

  /** Canonical hashing, the device-id shape check and the public half of a signing seed. */
  datatype Config = Config(idOf: IdOf, canonicalKey: Word -> bool, publicKey: Word -> Word)

  /** The committed states of a call, from the state it starts in, and whether it returned Ok. */
  datatype Trace = Trace(states: seq<VaultState>, ok: bool)

  function Final(t: Trace): VaultState
    requires t.states != []
  {
    t.states[|t.states| - 1]
  }

  /** Ingests the events of one chunk; the first one that is refused ends the call. */
  function IngestAll(cfg: Config, s: VaultState, evs: seq<Event>): (t: Trace)
    ensures t.states != [] && t.states[0] == s
    decreases |evs|
  {
    if evs == [] then Trace([s], true)
    else if !cfg.canonicalKey(evs[0].content.device) then Trace([s], false)
    else match Ingest(cfg.idOf, s.graph, evs[0])
      case Err(_) => Trace([s], false)
      case Ok(i) =>
        var rest := IngestAll(cfg, s.(graph := i.graph), evs[1..]);
        Trace([s] + rest.states, rest.ok)
  }

  /** Accounts in the order they were first touched. */
  function Touch(touched: seq<Word>, evs: seq<Event>): seq<Word>
    decreases |evs|
  {
    if evs == [] then touched
    else
      var a := evs[0].content.account;
      Touch(if a in touched then touched else touched + [a], evs[1..])
  }

  function PruneAll(s: VaultState, accounts: seq<Word>): (states: seq<VaultState>)
    ensures states != [] && states[0] == s
    decreases |accounts|
  {
    if accounts == [] then [s] else [s] + PruneAll(Prune(s, accounts[0]), accounts[1..])
  }

  function ChunkEnd(start: u64, head: u64): (end: u64)
    requires start < head
    ensures start < end <= head
    ensures end == head || end == start + PULL_CHUNK_SIZE
    ensures end - start <= PULL_CHUNK_SIZE
  {
    Min(SatAdd64(start, PULL_CHUNK_SIZE), head)
  }

  function Behind(passed: seq<VaultState>, t: Trace): Trace {
    t.(states := passed + t.states)
  }

  lemma {:induction false} BehindBehind(a: seq<VaultState>, b: seq<VaultState>, t: Trace)
    ensures Behind(a, Behind(b, t)) == Behind(a + b, t)
  {
  }

  lemma {:induction false} BehindNothing(t: Trace)
    ensures Behind([], t) == t
  {
  }

  /** One chunk, `(start, end]`: fetch, ingest, move the checkpoint, prune the accounts touched so far. */
  function ChunkTrace(cfg: Config, events: seq<Event>, faults: set<nat>, s: VaultState, start: u64, end: u64,
                      touched: seq<Word>, call: nat): (t: Trace)
    ensures t.states != [] && t.states[0] == s
  {
    if call in faults then Trace([s], false)
    else
      var evs := Pull(events, s.vaultId, start, end);
      var ingested := IngestAll(cfg, s, evs);
      if !ingested.ok then ingested
      else match Advance(Final(ingested), end)
        case Err(_) => Trace(ingested.states, false)
        case Ok(advanced) => Trace(ingested.states + PruneAll(advanced, Touch(touched, evs)), true)
  }

  /** Every touched account has an identity; the fork sweep after the loop fails on one that has none. */
  predicate Identified(g: Graph, touched: seq<Word>) {
    forall a :: a in touched ==> a in g.accounts
  }

  /**
   The chunk loop from `start` on, with the sweep at its end; `call` counts the adapter calls,
   `faults` says which of them fail.
   */
  function PullLoop(cfg: Config, events: seq<Event>, faults: set<nat>, s: VaultState, start: u64, head: u64,
                    touched: seq<Word>, call: nat): (t: Trace)
    ensures t.states != [] && t.states[0] == s
    decreases head as int - start as int
  {
    if start >= head then Trace([s], Identified(s.graph, touched))
    else
      var end := ChunkEnd(start, head);
      var chunk := ChunkTrace(cfg, events, faults, s, start, end, touched, call);
      if !chunk.ok then chunk
      else
        Behind(chunk.states, PullLoop(cfg, events, faults, Final(chunk), end, head,
                                      Touch(touched, Pull(events, s.vaultId, start, end)), call + 1))
  }

  /** `pull_all`. The head query is adapter call 0; it is only made without an upper override. */
  function PullTrace(cfg: Config, log: Log, faults: set<nat>, s: VaultState, fromOverride: Option<u64>,
                     untilOverride: Option<u64>): (t: Trace)
    ensures t.states != [] && t.states[0] == s
  {
    if untilOverride.None? && 0 in faults then Trace([s], false)
    else
      var start := if fromOverride.Some? then fromOverride.value else s.checkpoint;
      var head := if untilOverride.Some? then untilOverride.value else log.nextBlock;
      PullLoop(cfg, log.events, faults, s, start, head, [], 1)
  }

  // ---------------------------------------------------------------------
  // What a pull keeps
  // ---------------------------------------------------------------------

  /** Every one of `evs` that belongs to the vault and lies at or below `upto` is ingested. */
  ghost predicate Covered(cfg: Config, s: VaultState, evs: seq<Event>, upto: int) {
    forall ev :: ev in evs && ev.content.vault == s.vaultId && ev.anchor.block <= upto ==>
        Known(cfg.idOf, s.graph.rows, ev)
  }

  predicate HasRow(rows: seq<Row>, account: Word, id: Word) {
    exists r :: r in rows && r.content.account == account && r.id == id
  }

  /** A stash row of `s` is in `t`, or its target was missing before or has a child by now. */
  ghost predicate StashKept(s: VaultState, t: VaultState) {
    forall k :: k in s.stash && HasRow(s.graph.rows, k.0, k.1) ==> k in t.stash || HasChild(t.graph.rows, k.0, k.1)
  }

  /**
   What a pull never does to a vault: lose a revision, thaw an account, move a head pointer, add a
   stash row or drop one whose target is a head, move the checkpoint back.
   */
  ghost predicate Follows(s: VaultState, t: VaultState) {
    && t.vaultId == s.vaultId
    && s.checkpoint <= t.checkpoint
    && Grows(s.graph.rows, t.graph.rows)
    && (forall a :: a in s.graph.accounts ==>
          a in t.graph.accounts && t.graph.accounts[a].head == s.graph.accounts[a].head
          && (s.graph.accounts[a].frozen ==> t.graph.accounts[a].frozen))
    && (forall k :: k in t.stash ==> k in s.stash && t.stash[k] == s.stash[k])
    && StashKept(s, t)
  }

  lemma {:induction false} GrowsKeepsRow(rows: seq<Row>, rows': seq<Row>, account: Word, id: Word)
    requires Grows(rows, rows') && HasRow(rows, account, id)
    ensures HasRow(rows', account, id)
  {
  }

  lemma {:induction false} PruneFollows(s: VaultState, account: Word)
    ensures Follows(s, Prune(s, account))
  {
  }

  lemma {:induction false} FollowsTransitive(a: VaultState, b: VaultState, c: VaultState)
    requires Follows(a, b) && Follows(b, c)
    ensures Follows(a, c)
  {
  }

  lemma {:induction false} CoveredKept(cfg: Config, s: VaultState, t: VaultState, evs: seq<Event>, upto: int)
    requires Covered(cfg, s, evs, upto) && Follows(s, t)
    ensures Covered(cfg, t, evs, upto)
  {
  }

  lemma {:induction false} IngestFollows(cfg: Config, s: VaultState, ev: Event)
    requires Ingest(cfg.idOf, s.graph, ev).Ok?
    ensures Follows(s, s.(graph := Ingest(cfg.idOf, s.graph, ev).value.graph))
  {
  }

  /** The events of `evs` that an ingest accepts and passes on from. */
  predicate Accepts(cfg: Config, g: Graph, evs: seq<Event>) {
    evs != [] && cfg.canonicalKey(evs[0].content.device) && Ingest(cfg.idOf, g, evs[0]).Ok?
  }

  lemma {:induction false} IngestAllFollows(cfg: Config, s: VaultState, evs: seq<Event>)
    ensures forall x :: x in IngestAll(cfg, s, evs).states ==> Follows(s, x) && x.checkpoint == s.checkpoint
    decreases |evs|
  {
    if Accepts(cfg, s.graph, evs) {
      var next := s.(graph := Ingest(cfg.idOf, s.graph, evs[0]).value.graph);
      var rest := IngestAll(cfg, next, evs[1..]).states;
      IngestFollows(cfg, s, evs[0]);
      IngestAllFollows(cfg, next, evs[1..]);
      forall x | x in rest ensures Follows(s, x) {
        FollowsTransitive(s, next, x);
      }
      assert IngestAll(cfg, s, evs).states == [s] + rest;
    }
  }

  lemma {:induction false} IngestAllKnows(cfg: Config, s: VaultState, evs: seq<Event>, ev: Event)
    requires IngestAll(cfg, s, evs).ok && ev in evs
    ensures Known(cfg.idOf, Final(IngestAll(cfg, s, evs)).graph.rows, ev)
    decreases |evs|
  {
    var next := s.(graph := Ingest(cfg.idOf, s.graph, evs[0]).value.graph);
    var rest := IngestAll(cfg, next, evs[1..]);
    assert Final(IngestAll(cfg, s, evs)) == Final(rest);
    if ev == evs[0] {
      IngestMakesKnown(cfg.idOf, s.graph, ev);
      IngestAllFollows(cfg, next, evs[1..]);
      assert Final(rest) in rest.states;
      GrowsKeepsKnown(cfg.idOf, next.graph.rows, Final(rest).graph.rows, ev);
    } else {
      assert evs == [evs[0]] + evs[1..];
      IngestAllKnows(cfg, next, evs[1..], ev);
    }
  }

  lemma {:induction false} PruneAllFollows(s: VaultState, accounts: seq<Word>)
    ensures forall x :: x in PruneAll(s, accounts) ==>
              Follows(s, x) && x.graph == s.graph && x.checkpoint == s.checkpoint
    decreases |accounts|
  {
    if accounts != [] {
      var next := Prune(s, accounts[0]);
      PruneFollows(s, accounts[0]);
      PruneAllFollows(next, accounts[1..]);
      forall x | x in PruneAll(next, accounts[1..]) ensures Follows(s, x) {
        FollowsTransitive(s, next, x);
      }
    }
  }

  /** A state that a pull from `s` towards `head` may be killed in. */
  ghost predicate Sound(cfg: Config, evs: seq<Event>, s: VaultState, head: u64, x: VaultState) {
    && Follows(s, x)
    && Covered(cfg, x, evs, x.checkpoint)
    && (x.checkpoint == s.checkpoint || x.checkpoint <= head)
  }

  lemma {:induction false} SoundLater(cfg: Config, evs: seq<Event>, s: VaultState, head: u64, next: VaultState,
                                      x: VaultState)
    requires Follows(s, next) && next.checkpoint <= head && Sound(cfg, evs, next, head, x)
    ensures Sound(cfg, evs, s, head, x)
  {
  }

  /** A chunk's events are all known once it was ingested and the checkpoint moved to its end. */
  lemma {:induction false} AdvancedIsCovered(cfg: Config, events: seq<Event>, s: VaultState, start: u64, end: u64,
                                             evs: seq<Event>)
    requires Covered(cfg, s, evs, start) && start < end && forall ev :: ev in evs ==> ev in events
    requires IngestAll(cfg, s, Pull(events, s.vaultId, start, end)).ok
    ensures Covered(cfg, Final(IngestAll(cfg, s, Pull(events, s.vaultId, start, end))), evs, end)
  {
    var fetched := Pull(events, s.vaultId, start, end);
    IngestAllFollows(cfg, s, fetched);
    var last := Final(IngestAll(cfg, s, fetched));
    assert last in IngestAll(cfg, s, fetched).states;
    CoveredKept(cfg, s, last, evs, start);
    forall ev | ev in evs && ev.content.vault == last.vaultId && ev.anchor.block <= end
      ensures Known(cfg.idOf, last.graph.rows, ev)
    {
      if ev.anchor.block > start {
        PullMembers(events, s.vaultId, start, end, ev);
        IngestAllKnows(cfg, s, fetched, ev);
      }
    }
  }

  lemma {:induction false} ChunkCovers(cfg: Config, events: seq<Event>, faults: set<nat>, s: VaultState, start: u64,
                                       end: u64, touched: seq<Word>, call: nat, evs: seq<Event>)
    requires Covered(cfg, s, evs, start) && s.checkpoint <= start < end
    requires forall ev :: ev in evs ==> ev in events
    ensures var t := ChunkTrace(cfg, events, faults, s, start, end, touched, call);
            && (forall x :: x in t.states ==> Sound(cfg, evs, s, end, x))
            && (t.ok ==> Final(t).checkpoint == end && Covered(cfg, Final(t), evs, end))
  {
    var fetched := Pull(events, s.vaultId, start, end);
    var ingested := IngestAll(cfg, s, fetched);
    IngestAllFollows(cfg, s, fetched);
    forall x | x in ingested.states ensures Sound(cfg, evs, s, end, x) {
      CoveredKept(cfg, s, x, evs, start);
    }
    if ingested.ok && Advance(Final(ingested), end).Ok? {
      AdvancedIsCovered(cfg, events, s, start, end, evs);
      assert Final(ingested) in ingested.states;
      var advanced := Advance(Final(ingested), end).value;
      assert Follows(Final(ingested), advanced);
      FollowsTransitive(s, Final(ingested), advanced);
      PruneAllFollows(advanced, Touch(touched, fetched));
      forall x | x in PruneAll(advanced, Touch(touched, fetched)) ensures Sound(cfg, evs, s, end, x) {
        FollowsTransitive(s, advanced, x);
      }
    }
  }

  /**
   At every state of a pull from the checkpoint, error returns and kills in mid-chunk included,
   every event up to the stored checkpoint is ingested; after a pull that returned Ok, every
   event up to the head is. `evs` may be the whole log or any part of it.
   */
  lemma {:induction false} PullLoopCovers(cfg: Config, events: seq<Event>, faults: set<nat>, s: VaultState,
                                          start: u64, head: u64, touched: seq<Word>, call: nat, evs: seq<Event>)
    requires Covered(cfg, s, evs, start) && s.checkpoint <= start
    requires forall ev :: ev in evs ==> ev in events
    ensures var t := PullLoop(cfg, events, faults, s, start, head, touched, call);
            && (forall x :: x in t.states ==> Sound(cfg, evs, s, head, x))
            && (t.ok ==> Covered(cfg, Final(t), evs, head) && (start < head ==> Final(t).checkpoint == head))
    decreases head as int - start as int
  {
    if start < head {
      var end := ChunkEnd(start, head);
      var chunk := ChunkTrace(cfg, events, faults, s, start, end, touched, call);
      ChunkCovers(cfg, events, faults, s, start, end, touched, call, evs);
      if chunk.ok {
        var next := Final(chunk);
        assert next in chunk.states;
        var touched' := Touch(touched, Pull(events, s.vaultId, start, end));
        PullLoopCovers(cfg, events, faults, next, end, head, touched', call + 1, evs);
        forall x | x in PullLoop(cfg, events, faults, next, end, head, touched', call + 1).states
          ensures Sound(cfg, evs, s, head, x)
        {
          SoundLater(cfg, evs, s, head, next, x);
        }
      }
    }
  }

  // ---------------------------------------------------------------------
  // Pulls from anywhere
  // ---------------------------------------------------------------------

  lemma {:induction false} ChunkFollows(cfg: Config, events: seq<Event>, faults: set<nat>, s: VaultState, start: u64,
                                        end: u64, touched: seq<Word>, call: nat)
    ensures var t := ChunkTrace(cfg, events, faults, s, start, end, touched, call);
            && (forall x :: x in t.states ==> Follows(s, x) && (x.checkpoint == s.checkpoint || x.checkpoint == end))
            && (t.ok ==> Final(t).checkpoint == end)
  {
    var fetched := Pull(events, s.vaultId, start, end);
    var ingested := IngestAll(cfg, s, fetched);
    IngestAllFollows(cfg, s, fetched);
    assert Final(ingested) in ingested.states;
    if ingested.ok && Advance(Final(ingested), end).Ok? {
      var advanced := Advance(Final(ingested), end).value;
      var states := PruneAll(advanced, Touch(touched, fetched));
      assert Follows(Final(ingested), advanced);
      FollowsTransitive(s, Final(ingested), advanced);
      PruneAllFollows(advanced, Touch(touched, fetched));
      assert states[|states| - 1] in states;
      forall x | x in states ensures Follows(s, x) {
        FollowsTransitive(s, advanced, x);
      }
    }
  }

  /** Whatever the overrides, every state of a pull follows the one it started in. */
  lemma {:induction false} PullLoopFollows(cfg: Config, events: seq<Event>, faults: set<nat>, s: VaultState,
                                           start: u64, head: u64, touched: seq<Word>, call: nat)
    ensures var t := PullLoop(cfg, events, faults, s, start, head, touched, call);
            && (forall x :: x in t.states ==> Follows(s, x) && (x.checkpoint == s.checkpoint || x.checkpoint <= head))
            && (t.ok && start < head ==> Final(t).checkpoint == head)
    decreases head as int - start as int
  {
    if start < head {
      var end := ChunkEnd(start, head);
      var chunk := ChunkTrace(cfg, events, faults, s, start, end, touched, call);
      ChunkFollows(cfg, events, faults, s, start, end, touched, call);
      if chunk.ok {
        var next := Final(chunk);
        assert next in chunk.states;
        var touched' := Touch(touched, Pull(events, s.vaultId, start, end));
        PullLoopFollows(cfg, events, faults, next, end, head, touched', call + 1);
        forall x | x in PullLoop(cfg, events, faults, next, end, head, touched', call + 1).states
          ensures Follows(s, x)
        {
          FollowsTransitive(s, next, x);
        }
      }
    }
  }

  /**
   The order within a chunk: revisions, then the checkpoint, then the prunes. As long as the checkpoint has
   not moved nothing is pruned, once it has all of the chunk is ingested, and only the accounts
   touched so far are pruned.
   */
  lemma {:induction false} ChunkOrder(cfg: Config, events: seq<Event>, faults: set<nat>, s: VaultState, start: u64,
                                      end: u64, touched: seq<Word>, call: nat)
    requires s.checkpoint != end
    ensures var t := ChunkTrace(cfg, events, faults, s, start, end, touched, call);
            var fetched := Pull(events, s.vaultId, start, end);
            forall x :: x in t.states ==>
              && (x.checkpoint != end ==> x.stash == s.stash)
              && (x.checkpoint == end ==> x.graph == Final(IngestAll(cfg, s, fetched)).graph)
              && forall k :: k in s.stash && k.0 !in Touch(touched, fetched) ==> k in x.stash
  {
    var fetched := Pull(events, s.vaultId, start, end);
    var ingested := IngestAll(cfg, s, fetched);
    IngestAllFollows(cfg, s, fetched);
    IngestAllKeepsStash(cfg, s, fetched);
    assert Final(ingested) in ingested.states;
    if ingested.ok && Advance(Final(ingested), end).Ok? {
      var advanced := Advance(Final(ingested), end).value;
      PruneAllFollows(advanced, Touch(touched, fetched));
      PruneAllSparesOthers(advanced, Touch(touched, fetched));
    }
  }

  lemma {:induction false} IngestAllKeepsStash(cfg: Config, s: VaultState, evs: seq<Event>)
    ensures forall x :: x in IngestAll(cfg, s, evs).states ==> x.stash == s.stash
    decreases |evs|
  {
    if Accepts(cfg, s.graph, evs) {
      var next := s.(graph := Ingest(cfg.idOf, s.graph, evs[0]).value.graph);
      IngestAllKeepsStash(cfg, next, evs[1..]);
      assert IngestAll(cfg, s, evs).states == [s] + IngestAll(cfg, next, evs[1..]).states;
    }
  }

  lemma {:induction false} PruneAllSparesOthers(s: VaultState, accounts: seq<Word>)
    ensures forall x, k :: x in PruneAll(s, accounts) && k in s.stash && k.0 !in accounts ==> k in x.stash
    decreases |accounts|
  {
    if accounts != [] {
      var next := Prune(s, accounts[0]);
      PruneAllSparesOthers(next, accounts[1..]);
      assert accounts == [accounts[0]] + accounts[1..];
      forall k | k in s.stash && k.0 !in accounts ensures k in next.stash {
      }
    }
  }

  /** The checkpoint has passed the event, and the vault does not know it. */
  ghost predicate Skips(cfg: Config, s: VaultState, e: Event) {
    e.anchor.block <= s.checkpoint && !Known(cfg.idOf, s.graph.rows, e)
  }

  /** An event that is not skipped is not skipped by an ingest, either. */
  lemma {:induction false} SparedLater(cfg: Config, s: VaultState, x: VaultState, e: Event)
    requires !Skips(cfg, s, e) && Grows(s.graph.rows, x.graph.rows) && x.checkpoint == s.checkpoint
    ensures !Skips(cfg, x, e)
  {
    if e.anchor.block <= s.checkpoint {
      GrowsKeepsKnown(cfg.idOf, s.graph.rows, x.graph.rows, e);
    }
  }

  /** A chunk that starts at or below the checkpoint skips nothing. */
  lemma {:induction false} ChunkSpares(cfg: Config, events: seq<Event>, faults: set<nat>, s: VaultState, start: u64,
                                       end: u64, touched: seq<Word>, call: nat, e: Event)
    requires e in events && e.content.vault == s.vaultId && start <= s.checkpoint && start < end && !Skips(cfg, s, e)
    ensures forall x :: x in ChunkTrace(cfg, events, faults, s, start, end, touched, call).states ==> !Skips(cfg, x, e)
  {
    var t := ChunkTrace(cfg, events, faults, s, start, end, touched, call);
    var fetched := Pull(events, s.vaultId, start, end);
    var ingested := IngestAll(cfg, s, fetched);
    ChunkFollows(cfg, events, faults, s, start, end, touched, call);
    IngestAllFollows(cfg, s, fetched);
    forall x | x in t.states ensures !Skips(cfg, x, e) {
      if x.checkpoint == s.checkpoint {
        SparedLater(cfg, s, x, e);
      } else {
        assert x !in ingested.states && e in [e];
        AdvancedIsCovered(cfg, events, s, start, end, [e]);
        PruneAllFollows(Advance(Final(ingested), end).value, Touch(touched, fetched));
      }
    }
  }

  /** A pull that starts at or below the checkpoint skips nothing. */
  lemma {:induction false} PullLoopSpares(cfg: Config, events: seq<Event>, faults: set<nat>, s: VaultState, start: u64,
                                          head: u64, touched: seq<Word>, call: nat, e: Event)
    requires e in events && e.content.vault == s.vaultId && start <= s.checkpoint && !Skips(cfg, s, e)
    ensures forall x :: x in PullLoop(cfg, events, faults, s, start, head, touched, call).states ==> !Skips(cfg, x, e)
    decreases head as int - start as int
  {
    if start < head {
      var end := ChunkEnd(start, head);
      var chunk := ChunkTrace(cfg, events, faults, s, start, end, touched, call);
      ChunkSpares(cfg, events, faults, s, start, end, touched, call, e);
      ChunkFollows(cfg, events, faults, s, start, end, touched, call);
      if chunk.ok {
        assert Final(chunk) in chunk.states;
        PullLoopSpares(cfg, events, faults, Final(chunk), end, head,
                       Touch(touched, Pull(events, s.vaultId, start, end)), call + 1, e);
      }
    }
  }

  /** After an Ok default pull, an event at or below the head that was not skipped is known. */
  lemma {:induction false} DefaultPullKnows(cfg: Config, log: Log, faults: set<nat>, s: VaultState, e: Event)
    requires e in log.events && e.content.vault == s.vaultId && e.anchor.block <= log.nextBlock && !Skips(cfg, s, e)
    requires PullTrace(cfg, log, faults, s, None, None).ok
    ensures Known(cfg.idOf, Final(PullTrace(cfg, log, faults, s, None, None)).graph.rows, e)
  {
    PullLoopCovers(cfg, log.events, faults, s, s.checkpoint, log.nextBlock, [], 1, [e]);
    PullLoopFollows(cfg, log.events, faults, s, s.checkpoint, log.nextBlock, [], 1);
    var t := PullTrace(cfg, log, faults, s, None, None);
    assert Final(t) in t.states && e in [e];
  }

  // ---------------------------------------------------------------------
  // Invariants of the revision table
  // ---------------------------------------------------------------------

  /** A property of the rows that ingesting any of the vault's log events above `after` keeps. */
  ghost predicate Stable(cfg: Config, events: seq<Event>, vault: Word, after: int, p: seq<Row> -> bool) {
    forall g: Graph, ev: Event ::
      p(g.rows) && ev in events && ev.content.vault == vault && ev.anchor.block > after && Ingest(cfg.idOf, g, ev).Ok?
      ==> p(Ingest(cfg.idOf, g, ev).value.graph.rows)
  }

  lemma {:induction false} IngestAllPreserves(cfg: Config, s: VaultState, evs: seq<Event>, events: seq<Event>,
                                              vault: Word, after: int, p: seq<Row> -> bool)
    requires Stable(cfg, events, vault, after, p) && p(s.graph.rows)
    requires forall ev :: ev in evs ==> ev in events && ev.content.vault == vault && ev.anchor.block > after
    ensures forall x :: x in IngestAll(cfg, s, evs).states ==> p(x.graph.rows)
    decreases |evs|
  {
    if Accepts(cfg, s.graph, evs) {
      var next := s.(graph := Ingest(cfg.idOf, s.graph, evs[0]).value.graph);
      assert evs[0] in evs;
      IngestAllPreserves(cfg, next, evs[1..], events, vault, after, p);
      assert IngestAll(cfg, s, evs).states == [s] + IngestAll(cfg, next, evs[1..]).states;
    }
  }

  lemma {:induction false} ChunkPreserves(cfg: Config, events: seq<Event>, faults: set<nat>, s: VaultState,
                                          start: u64, end: u64, touched: seq<Word>, call: nat, after: int,
                                          p: seq<Row> -> bool)
    requires Stable(cfg, events, s.vaultId, after, p) && p(s.graph.rows) && after <= start
    ensures var t := ChunkTrace(cfg, events, faults, s, start, end, touched, call);
            forall x :: x in t.states ==> p(x.graph.rows) && x.vaultId == s.vaultId
  {
    var evs := Pull(events, s.vaultId, start, end);
    forall ev | ev in evs ensures ev in events && ev.content.vault == s.vaultId && ev.anchor.block > after {
      PullMembers(events, s.vaultId, start, end, ev);
    }
    IngestAllPreserves(cfg, s, evs, events, s.vaultId, after, p);
    IngestAllFollows(cfg, s, evs);
    var ingested := IngestAll(cfg, s, evs);
    assert Final(ingested) in ingested.states;
    if ingested.ok && Advance(Final(ingested), end).Ok? {
      PruneAllFollows(Advance(Final(ingested), end).value, Touch(touched, evs));
    }
  }

  /** What ingesting the events above the start keeps, every state of a pull keeps. */
  lemma {:induction false} PullPreserves(cfg: Config, events: seq<Event>, faults: set<nat>, s: VaultState, start: u64,
                                         head: u64, touched: seq<Word>, call: nat, after: int, p: seq<Row> -> bool)
    requires Stable(cfg, events, s.vaultId, after, p) && p(s.graph.rows) && after <= start
    ensures forall x :: x in PullLoop(cfg, events, faults, s, start, head, touched, call).states ==> p(x.graph.rows)
    decreases head as int - start as int
  {
    if start < head {
      var end := ChunkEnd(start, head);
      var chunk := ChunkTrace(cfg, events, faults, s, start, end, touched, call);
      ChunkPreserves(cfg, events, faults, s, start, end, touched, call, after, p);
      if chunk.ok {
        assert Final(chunk) in chunk.states;
        PullPreserves(cfg, events, faults, Final(chunk), end, head,
                      Touch(touched, Pull(events, s.vaultId, start, end)), call + 1, after, p);
      }
    }
  }

  // ---------------------------------------------------------------------
  // Overrides and windows
  // ---------------------------------------------------------------------

  /** Every event of the list carries a canonical device id. */
  predicate AllCanonical(cfg: Config, evs: seq<Event>) {
    forall ev :: ev in evs ==> cfg.canonicalKey(ev.content.device)
  }

  /** With places that the columns can hold, ingesting a list fails only at a device id that is not canonical. */
  lemma {:induction false} IngestAllSucceedsIffCanonical(cfg: Config, s: VaultState, evs: seq<Event>)
    requires forall ev :: ev in evs ==> Storable(ev.anchor)
    ensures IngestAll(cfg, s, evs).ok <==> AllCanonical(cfg, evs)
    decreases |evs|
  {
    if evs != [] {
      assert evs[0] in evs;
      assert evs == [evs[0]] + evs[1..];
      if cfg.canonicalKey(evs[0].content.device) {
        var next := s.(graph := Ingest(cfg.idOf, s.graph, evs[0]).value.graph);
        IngestAllSucceedsIffCanonical(cfg, next, evs[1..]);
      }
    }
  }

  /** The vault's events of the window carry canonical device ids. */
  ghost predicate CanonicalWindow(cfg: Config, events: seq<Event>, vault: Word, after: int, upto: int) {
    forall ev :: ev in events && InWindow(ev, vault, after, upto) ==> cfg.canonicalKey(ev.content.device)
  }

  lemma {:induction false} CanonicalPull(cfg: Config, events: seq<Event>, vault: Word, after: int, upto: int)
    ensures AllCanonical(cfg, Pull(events, vault, after, upto)) <==> CanonicalWindow(cfg, events, vault, after, upto)
  {
    forall ev ensures ev in Pull(events, vault, after, upto) <==> ev in events && InWindow(ev, vault, after, upto) {
      PullMembers(events, vault, after, upto, ev);
    }
  }

  /**
   Every row's account has an identity, and no id is shared between accounts, neither in the table
   nor with the log.
   */
  ghost predicate IdsBindAccounts(idOf: IdOf, g: Graph, events: seq<Event>) {
    && (forall r :: r in g.rows ==> r.content.account in g.accounts)
    && (forall r, e :: r in g.rows && e in events && r.id == idOf(e.content) ==> r.content.account == e.content.account)
    && (forall e, f :: e in events && f in events && idOf(e.content) == idOf(f.content) ==>
          e.content.account == f.content.account)
  }

  lemma {:induction false} IngestIdentifies(idOf: IdOf, g: Graph, ev: Event, events: seq<Event>)
    requires IdsBindAccounts(idOf, g, events) && ev in events && Ingest(idOf, g, ev).Ok?
    ensures IdsBindAccounts(idOf, Ingest(idOf, g, ev).value.graph, events)
    ensures ev.content.account in Ingest(idOf, g, ev).value.graph.accounts
  {
  }

  lemma {:induction false} IngestAllKeepsAccounts(cfg: Config, s: VaultState, evs: seq<Event>, account: Word)
    requires account in s.graph.accounts
    ensures account in Final(IngestAll(cfg, s, evs)).graph.accounts
  {
    IngestAllFollows(cfg, s, evs);
    assert Final(IngestAll(cfg, s, evs)) in IngestAll(cfg, s, evs).states;
  }

  lemma {:induction false} IngestAllIdentifies(cfg: Config, s: VaultState, evs: seq<Event>, events: seq<Event>)
    requires IdsBindAccounts(cfg.idOf, s.graph, events) && IngestAll(cfg, s, evs).ok
    requires forall e :: e in evs ==> e in events
    ensures IdsBindAccounts(cfg.idOf, Final(IngestAll(cfg, s, evs)).graph, events)
    ensures forall e :: e in evs ==> e.content.account in Final(IngestAll(cfg, s, evs)).graph.accounts
    decreases |evs|
  {
    if evs != [] {
      assert evs[0] in evs;
      var next := s.(graph := Ingest(cfg.idOf, s.graph, evs[0]).value.graph);
      var rest := IngestAll(cfg, next, evs[1..]);
      assert Final(IngestAll(cfg, s, evs)) == Final(rest);
      IngestIdentifies(cfg.idOf, s.graph, evs[0], events);
      IngestAllIdentifies(cfg, next, evs[1..], events);
      IngestAllKeepsAccounts(cfg, next, evs[1..], evs[0].content.account);
      forall e | e in evs ensures e.content.account in Final(rest).graph.accounts {
        assert e == evs[0] || e in evs[1..];
      }
    }
  }

  lemma {:induction false} TouchedAreOld(touched: seq<Word>, evs: seq<Event>)
    ensures forall a :: a in Touch(touched, evs) ==> a in touched || exists e :: e in evs && e.content.account == a
    decreases |evs|
  {
    if evs != [] {
      var a := evs[0].content.account;
      TouchedAreOld(if a in touched then touched else touched + [a], evs[1..]);
      assert evs == [evs[0]] + evs[1..];
      assert evs[0] in evs;
    }
  }

  lemma {:induction false} ChunkSucceedsIff(cfg: Config, events: seq<Event>, s: VaultState, start: u64, end: u64,
                                            touched: seq<Word>, call: nat)
    requires end <= I64_MAX && forall ev :: ev in events && InWindow(ev, s.vaultId, start, end) ==> Storable(ev.anchor)
    requires IdsBindAccounts(cfg.idOf, s.graph, events) && Identified(s.graph, touched)
    ensures var chunk := ChunkTrace(cfg, events, {}, s, start, end, touched, call);
            && (chunk.ok <==> s.checkpoint <= end && CanonicalWindow(cfg, events, s.vaultId, start, end))
            && (chunk.ok ==> Final(chunk).checkpoint == end && Final(chunk).vaultId == s.vaultId
                             && IdsBindAccounts(cfg.idOf, Final(chunk).graph, events)
                             && Identified(Final(chunk).graph, Touch(touched, Pull(events, s.vaultId, start, end))))
  {
    var fetched := Pull(events, s.vaultId, start, end);
    forall ev | ev in fetched ensures Storable(ev.anchor) && ev in events {
      PullMembers(events, s.vaultId, start, end, ev);
    }
    IngestAllSucceedsIffCanonical(cfg, s, fetched);
    CanonicalPull(cfg, events, s.vaultId, start, end);
    IngestAllFollows(cfg, s, fetched);
    var last := Final(IngestAll(cfg, s, fetched));
    assert last in IngestAll(cfg, s, fetched).states;
    if IngestAll(cfg, s, fetched).ok && Advance(last, end).Ok? {
      IngestAllIdentifies(cfg, s, fetched, events);
      TouchedAreOld(touched, fetched);
      var pruned := PruneAll(Advance(last, end).value, Touch(touched, fetched));
      PruneAllFollows(Advance(last, end).value, Touch(touched, fetched));
      assert pruned[|pruned| - 1] in pruned;
    }
  }

  /**
   When no adapter call fails, no place overflows its column and no id is shared between accounts, a
   pull returns Ok exactly when its first chunk does not end below the stored checkpoint and every
   event of the vault in its range carries a canonical device id. `advance_last_pulled_block` refuses
   to move back, so a `--from-block` more than one chunk below the checkpoint always fails.
   */
  lemma {:induction false} PullSucceedsIff(cfg: Config, events: seq<Event>, s: VaultState, start: u64, head: u64,
                                           touched: seq<Word>, call: nat)
    requires start < head <= I64_MAX
    requires forall ev :: ev in events && InWindow(ev, s.vaultId, start, head) ==> Storable(ev.anchor)
    requires IdsBindAccounts(cfg.idOf, s.graph, events) && Identified(s.graph, touched)
    ensures PullLoop(cfg, events, {}, s, start, head, touched, call).ok
            <==> s.checkpoint <= ChunkEnd(start, head) && CanonicalWindow(cfg, events, s.vaultId, start, head)
    decreases head as int - start as int
  {
    var end := ChunkEnd(start, head);
    ChunkSucceedsIff(cfg, events, s, start, end, touched, call);
    var chunk := ChunkTrace(cfg, events, {}, s, start, end, touched, call);
    if chunk.ok && end < head {
      var touched' := Touch(touched, Pull(events, s.vaultId, start, end));
      PullSucceedsIff(cfg, events, Final(chunk), end, head, touched', call + 1);
    }
  }

  /** The windows of the chunk loop, one pull each, joined. */
  function PullInChunks(events: seq<Event>, vault: Word, start: u64, head: u64): seq<Event>
    decreases head as int - start as int
  {
    if start >= head then []
    else Pull(events, vault, start, ChunkEnd(start, head)) + PullInChunks(events, vault, ChunkEnd(start, head), head)
  }

  /** However many chunks the outer loop makes, it fetches what one pull of the whole range fetches. */
  lemma {:induction false} ChunksAreOnePull(events: seq<Event>, vault: Word, start: u64, head: u64)
    requires Chronological(events) && start <= head
    ensures PullInChunks(events, vault, start, head) == Pull(events, vault, start, head)
    decreases head as int - start as int
  {
    if start < head {
      ChunksAreOnePull(events, vault, ChunkEnd(start, head), head);
      PullSplit(events, vault, start, ChunkEnd(start, head), head);
    } else {
      PullNothing(events, vault, start, head);
    }
  }

  // ---------------------------------------------------------------------
  // The methods
  // ---------------------------------------------------------------------

  datatype ForkSummary = ForkSummary(account: Word, heads: set<Word>)

  datatype PullReport = PullReport(applied: nat, forks: seq<ForkSummary>, frozen: set<Word>, lastPulledBlock: u64)

  datatype PullFailure = ChainFailure | DeviceIdRefused | StoreFailure(error: StoreError)

  /** The chain adapter as one call sees it: a log, and the calls that will fail. */
  class Network {
    var log: Log
    /** The events that this device put on chain. */
    ghost var own: seq<Event>
    const faults: set<nat>
    var calls: nat

    constructor (log: Log, faults: set<nat>)
      ensures this.log == log && this.faults == faults && calls == 0 && own == []
    {
      this.log, this.faults, calls, own := log, faults, 0, [];
    }

    method CurrentBlock() returns (r: Option<u64>)
      modifies this`calls
      ensures calls == old(calls) + 1
      ensures r == if old(calls) in faults then None else Some(log.nextBlock)
    {
      r := if calls in faults then None else Some(log.nextBlock);
      calls := calls + 1;
    }

    method PullSince(vault: Word, fromBlock: u64, untilBlock: u64) returns (r: Option<seq<Event>>)
      modifies this`calls
      ensures calls == old(calls) + 1
      ensures r == if old(calls) in faults then None else Some(Pull(log.events, vault, fromBlock, untilBlock))
    {
      r := if calls in faults then None else Some(Pull(log.events, vault, fromBlock, untilBlock));
      calls := calls + 1;
    }
  }

  /** One event's share of a chunk. */
  lemma {:induction false} IngestAllStep(cfg: Config, s: VaultState, evs: seq<Event>, i: nat, passed: seq<VaultState>)
    requires i < |evs|
    ensures var whole := Behind(passed, IngestAll(cfg, s, evs[i..]));
            if !cfg.canonicalKey(evs[i].content.device) || Ingest(cfg.idOf, s.graph, evs[i]).Err?
            then whole == Trace(passed + [s], false)
            else whole == Behind(passed + [s],
                                 IngestAll(cfg, s.(graph := Ingest(cfg.idOf, s.graph, evs[i]).value.graph),
                                           evs[i + 1..]))
  {
    assert evs[i..][1..] == evs[i + 1..];
    if cfg.canonicalKey(evs[i].content.device) && Ingest(cfg.idOf, s.graph, evs[i]).Ok? {
      BehindBehind(passed, [s],
                   IngestAll(cfg, s.(graph := Ingest(cfg.idOf, s.graph, evs[i]).value.graph), evs[i + 1..]));
    }
  }

  /** The per-event loop of one chunk. `passed` lists the committed states. */
  method IngestChunk(cfg: Config, vault: Vault, evs: seq<Event>)
    returns (r: Result<nat, PullFailure>, ghost passed: seq<VaultState>)
    modifies vault`rows, vault`accounts
    ensures var t := IngestAll(cfg, old(vault.View()), evs);
            passed == t.states && vault.View() == Final(t) && (r.Ok? <==> t.ok)
    ensures r.Ok? ==> |vault.rows| == |old(vault.rows)| + r.value
  {
    var applied := 0;
    ghost var whole := IngestAll(cfg, vault.View(), evs);
    passed := [];
    BehindNothing(whole);
    assert evs[0..] == evs;
    for i := 0 to |evs|
      invariant whole == Behind(passed, IngestAll(cfg, vault.View(), evs[i..]))
      invariant |vault.rows| == |old(vault.rows)| + applied
    {
      IngestAllStep(cfg, vault.View(), evs, i, passed);
      passed := passed + [vault.View()];
      if !cfg.canonicalKey(evs[i].content.device) {
        return Err(DeviceIdRefused), passed;
      }
      var outcome := vault.IngestChainRevision(cfg.idOf, evs[i]);
      if outcome.Err? {
        return Err(StoreFailure(outcome.error)), passed;
      }
      if outcome.value == Inserted {
        applied := applied + 1;
      }
    }
    return Ok(applied), passed + [vault.View()];
  }

  method TouchAccounts(touched: seq<Word>, evs: seq<Event>) returns (r: seq<Word>)
    ensures r == Touch(touched, evs)
  {
    r := touched;
    assert evs[0..] == evs;
    for i := 0 to |evs|
      invariant Touch(touched, evs) == Touch(r, evs[i..])
    {
      assert evs[i..][1..] == evs[i + 1..];
      if evs[i].content.account !in r {
        r := r + [evs[i].content.account];
      }
    }
  }

  method PruneTouched(vault: Vault, accounts: seq<Word>) returns (ghost passed: seq<VaultState>)
    modifies vault`stash
    ensures passed == PruneAll(old(vault.View()), accounts) && vault.View() == passed[|passed| - 1]
  {
    ghost var whole := PruneAll(vault.View(), accounts);
    passed := [];
    assert accounts[0..] == accounts;
    for i := 0 to |accounts|
      invariant whole == passed + PruneAll(vault.View(), accounts[i..])
    {
      ghost var here := vault.View();
      assert accounts[i..][1..] == accounts[i + 1..];
      var _ := vault.PruneOrphanPendingMerges(accounts[i]);
      assert passed + ([here] + PruneAll(vault.View(), accounts[i + 1..]))
          == (passed + [here]) + PruneAll(vault.View(), accounts[i + 1..]);
      passed := passed + [here];
    }
    passed := passed + [vault.View()];
  }

  /** The sweep over the touched accounts; it fails on one without an identity. */
  method FindForks(vault: Vault, touched: seq<Word>) returns (r: Result<seq<ForkSummary>, StoreError>)
    ensures r.Ok? <==> Identified(vault.View().graph, touched)
    ensures r.Ok? ==> forall f :: f in r.value <==>
                        f.account in touched && f.heads == Heads(vault.rows, f.account) && |f.heads| > 1
    ensures r.Err? ==> r.error == AccountNotFound
  {
    var forks: seq<ForkSummary> := [];
    for i := 0 to |touched|
      invariant forall a :: a in touched[..i] ==> a in vault.accounts
      invariant forall f :: f in forks <==>
        f.account in touched[..i] && f.heads == Heads(vault.rows, f.account) && |f.heads| > 1
    {
      var heads := vault.AccountHeads(touched[i]);
      if heads.Err? {
        return Err(heads.error);
      }
      if |heads.value| > 1 {
        forks := forks + [ForkSummary(touched[i], heads.value)];
      }
    }
    return Ok(forks);
  }

  /** The body of the chunk loop. `passed` lists the committed states. */
  method PullChunk(cfg: Config, vault: Vault, net: Network, start: u64, end: u64, touched: seq<Word>)
    returns (r: Result<nat, PullFailure>, touched': seq<Word>, ghost passed: seq<VaultState>)
    modifies vault, net`calls
    ensures net.calls == old(net.calls) + 1
    ensures var t := ChunkTrace(cfg, net.log.events, net.faults, old(vault.View()), start, end, touched,
                                old(net.calls));
            passed == t.states && vault.View() == Final(t) && (r.Ok? <==> t.ok)
    ensures r.Ok? ==> |vault.rows| == |old(vault.rows)| + r.value
                      && touched' == Touch(touched, Pull(net.log.events, vault.vaultId, start, end))
  {
    touched' := touched;
    var fetched := net.PullSince(vault.vaultId, start, end);
    if fetched.None? {
      return Err(ChainFailure), touched', [vault.View()];
    }
    var applied, ingested := IngestChunk(cfg, vault, fetched.value);
    if applied.Err? {
      return Err(applied.error), touched', ingested;
    }
    var advanced := vault.AdvanceLastPulledBlock(end);
    if advanced.Err? {
      return Err(StoreFailure(advanced.error)), touched', ingested;
    }
    touched' := TouchAccounts(touched, fetched.value);
    ghost var pruned := PruneTouched(vault, touched');
    return applied, touched', ingested + pruned;
  }

  /** One chunk's share of the loop. */
  lemma {:induction false} PullLoopStep(cfg: Config, events: seq<Event>, faults: set<nat>, s: VaultState, start: u64,
                                        head: u64, touched: seq<Word>, call: nat, passed: seq<VaultState>,
                                        whole: Trace)
    requires start < head && whole == Behind(passed, PullLoop(cfg, events, faults, s, start, head, touched, call))
    ensures var end := ChunkEnd(start, head);
            var chunk := ChunkTrace(cfg, events, faults, s, start, end, touched, call);
            if !chunk.ok then whole == Trace(passed + chunk.states, false)
            else whole == Behind(passed + chunk.states,
                                 PullLoop(cfg, events, faults, Final(chunk), end, head,
                                          Touch(touched, Pull(events, s.vaultId, start, end)), call + 1))
  {
  }

  lemma {:induction false} TouchAppend(touched: seq<Word>, a: seq<Event>, b: seq<Event>)
    ensures Touch(touched, a + b) == Touch(Touch(touched, a), b)
    decreases |a|
  {
    if a == [] {
      assert a + b == b;
    } else {
      assert (a + b)[0] == a[0] && (a + b)[1..] == a[1..] + b;
      var x := a[0].content.account;
      TouchAppend(if x in touched then touched else touched + [x], a[1..], b);
    }
  }

  /** The accounts that the chunk loop has touched when it ends. */
  function TouchedBy(events: seq<Event>, vault: Word, touched: seq<Word>, start: u64, head: u64): seq<Word>
    decreases head as int - start as int
  {
    if start >= head then touched
    else
      var end := ChunkEnd(start, head);
      TouchedBy(events, vault, Touch(touched, Pull(events, vault, start, end)), end, head)
  }

  lemma {:induction false} TouchedByAll(events: seq<Event>, vault: Word, touched: seq<Word>, start: u64, head: u64)
    ensures TouchedBy(events, vault, touched, start, head) == Touch(touched, PullInChunks(events, vault, start, head))
    decreases head as int - start as int
  {
    if start < head {
      var end := ChunkEnd(start, head);
      var first := Pull(events, vault, start, end);
      TouchAppend(touched, first, PullInChunks(events, vault, end, head));
      TouchedByAll(events, vault, Touch(touched, first), end, head);
    }
  }

  lemma {:induction false} PullLoopEnd(cfg: Config, events: seq<Event>, faults: set<nat>, s: VaultState, start: u64,
                                       head: u64, touched: seq<Word>, call: nat, passed: seq<VaultState>,
                                       whole: Trace)
    requires start >= head && whole == Behind(passed, PullLoop(cfg, events, faults, s, start, head, touched, call))
    ensures whole == Trace(passed + [s], Identified(s.graph, touched))
  {
  }

  /** One pass of the chunk loop, with the whole call's trace at hand. */
  method PullNextChunk(cfg: Config, vault: Vault, net: Network, start: u64, head: u64, touched: seq<Word>,
                       ghost before: seq<VaultState>, ghost whole: Trace)
    returns (r: Result<nat, PullFailure>, touched': seq<Word>, ghost passed: seq<VaultState>)
    requires start < head
    requires whole == Behind(before,
                             PullLoop(cfg, net.log.events, net.faults, vault.View(), start, head, touched, net.calls))
    modifies vault, net`calls
    ensures r.Err? ==> whole == Trace(passed, false) && passed != [] && vault.View() == Final(whole)
    ensures r.Ok? ==>
              && whole == Behind(passed,
                                 PullLoop(cfg, net.log.events, net.faults, vault.View(), ChunkEnd(start, head), head,
                                          touched', net.calls))
              && touched' == Touch(touched, Pull(net.log.events, vault.vaultId, start, ChunkEnd(start, head)))
              && |vault.rows| == |old(vault.rows)| + r.value
  {
    ghost var chunk := ChunkTrace(cfg, net.log.events, net.faults, vault.View(), start, ChunkEnd(start, head),
                                  touched, net.calls);
    PullLoopStep(cfg, net.log.events, net.faults, vault.View(), start, head, touched, net.calls, before, whole);
    var count, touched2, states := PullChunk(cfg, vault, net, start, ChunkEnd(start, head), touched);
    assert states == chunk.states && (count.Ok? <==> chunk.ok);
    r, touched', passed := count, touched2, before + states;
  }

  /** The chunk loop. `passed` lists the committed states. */
  method PullChunks(cfg: Config, vault: Vault, net: Network, start: u64, head: u64)
    returns (r: Result<nat, PullFailure>, touched: seq<Word>, ghost passed: seq<VaultState>)
    requires net.calls == 1 && start < head
    modifies vault, net`calls
    ensures var t := PullLoop(cfg, net.log.events, net.faults, old(vault.View()), start, head, [], 1);
            && passed == t.states && vault.View() == Final(t)
            && (t.ok <==> r.Ok? && Identified(vault.View().graph, touched))
    ensures r.Ok? ==> |vault.rows| == |old(vault.rows)| + r.value
                      && touched == TouchedBy(net.log.events, vault.vaultId, [], start, head)
  {
    var applied := 0;
    touched := [];
    var chunkStart := start;
    ghost var whole := PullLoop(cfg, net.log.events, net.faults, vault.View(), start, head, [], 1);
    passed := [];
    BehindNothing(whole);
    while chunkStart < head
      invariant chunkStart <= head
      invariant whole == Behind(passed,
                                PullLoop(cfg, net.log.events, net.faults, vault.View(), chunkStart, head, touched,
                                         net.calls))
      invariant |vault.rows| == |old(vault.rows)| + applied
      invariant TouchedBy(net.log.events, vault.vaultId, [], start, head)
             == TouchedBy(net.log.events, vault.vaultId, touched, chunkStart, head)
      decreases head as int - chunkStart as int
    {
      var count, touched', states := PullNextChunk(cfg, vault, net, chunkStart, head, touched, passed, whole);
      passed := states;
      if count.Err? {
        return Err(count.error), touched, passed;
      }
      chunkStart, touched, applied := ChunkEnd(chunkStart, head), touched', applied + count.value;
    }
    PullLoopEnd(cfg, net.log.events, net.faults, vault.View(), chunkStart, head, touched, net.calls, passed, whole);
    return Ok(applied), touched, passed + [vault.View()];
  }

  method PullAll(cfg: Config, vault: Vault, net: Network, fromOverride: Option<u64>, untilOverride: Option<u64>)
    returns (r: Result<PullReport, PullFailure>, ghost passed: seq<VaultState>)
    requires net.calls == 0
    modifies vault, net`calls
    ensures var t := PullTrace(cfg, net.log, net.faults, old(vault.View()), fromOverride, untilOverride);
            passed == t.states && vault.View() == Final(t) && (r.Ok? <==> t.ok)
    ensures var start := fromOverride.GetOr(old(vault.checkpoint));
            var head := untilOverride.GetOr(net.log.nextBlock);
            r.Ok? ==>
              && r.value.applied == |vault.rows| - |old(vault.rows)|
              && r.value.lastPulledBlock == (if head <= start then start else head)
              && r.value.frozen == (if head <= start then {} else FrozenAccounts(vault.View().graph))
              && forall f :: f in r.value.forks <==>
                   && f.account in Touch([], PullInChunks(net.log.events, vault.vaultId, start, head))
                   && f.heads == Heads(vault.rows, f.account) && |f.heads| > 1
  {
    var start := fromOverride.GetOr(vault.checkpoint);
    var head: u64;
    if untilOverride.Some? {
      head := untilOverride.value;
      net.calls := 1;
    } else {
      var current := net.CurrentBlock();
      if current.None? {
        return Err(ChainFailure), [vault.View()];
      }
      head := current.value;
    }
    if head <= start {
      return Ok(PullReport(0, [], {}, start)), [vault.View()];
    }
    var applied, touched, states := PullChunks(cfg, vault, net, start, head);
    if applied.Err? {
      return Err(applied.error), states;
    }
    TouchedByAll(net.log.events, vault.vaultId, [], start, head);
    var forks := FindForks(vault, touched);
    if forks.Err? {
      return Err(StoreFailure(forks.error)), states;
    }
    return Ok(PullReport(applied.value, forks.value, FrozenAccounts(Graph(vault.rows, vault.accounts)), head)), states;
  }
}
