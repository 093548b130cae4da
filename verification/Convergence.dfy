/**
 Interrupted pulls converge: any number of failed or killed runs, against any earlier states of
 the log, followed by one successful run, leaves the revisions and the checkpoint of a single
 unfailed run.
 */
module Convergence {
  import opened Bytes
  import opened Signing
  import opened ChainLog
  import opened Store
  import opened Pulls

  /** What ingesting one event leaves of the revision graph. */
  function Absorb(idOf: IdOf, g: Graph, ev: Event): Graph {
    match Ingest(idOf, g, ev)
    case Err(_) => g
    case Ok(i) => i.graph
  }

  /** The reference: all events ingested once, in log order. */
  function AbsorbAll(idOf: IdOf, g: Graph, evs: seq<Event>): Graph
    decreases |evs|
  {
    if evs == [] then g else AbsorbAll(idOf, Absorb(idOf, g, evs[0]), evs[1..])
  }

  lemma {:induction false} AbsorbAppend(idOf: IdOf, g: Graph, a: seq<Event>, b: seq<Event>)
    ensures AbsorbAll(idOf, g, a + b) == AbsorbAll(idOf, AbsorbAll(idOf, g, a), b)
    decreases |a|
  {
    if a == [] {
      assert a + b == b;
    } else {
      assert (a + b)[0] == a[0] && (a + b)[1..] == a[1..] + b;
      AbsorbAppend(idOf, Absorb(idOf, g, a[0]), a[1..], b);
    }
  }

  ghost predicate AllKnown(idOf: IdOf, g: Graph, evs: seq<Event>) {
    forall i :: 0 <= i < |evs| ==> Known(idOf, g.rows, evs[i])
  }

  /** Ingesting known events again changes nothing. */
  lemma {:induction false} KnownIsAbsorbed(idOf: IdOf, g: Graph, evs: seq<Event>)
    requires AllKnown(idOf, g, evs)
    ensures AbsorbAll(idOf, g, evs) == g
    decreases |evs|
  {
    if evs != [] {
      assert Absorb(idOf, g, evs[0]) == g;
      KnownIsAbsorbed(idOf, g, evs[1..]);
    }
  }

  lemma {:induction false} AbsorbGrows(idOf: IdOf, g: Graph, ev: Event)
    ensures Grows(g.rows, Absorb(idOf, g, ev).rows)
  {
  }

  /** Committed state i of a chunk's ingest holds exactly its first i events. */
  lemma {:induction false} IngestAllAbsorbs(cfg: Config, s: VaultState, evs: seq<Event>, i: nat)
    requires i < |IngestAll(cfg, s, evs).states|
    ensures i <= |evs|
    ensures IngestAll(cfg, s, evs).states[i] == s.(graph := AbsorbAll(cfg.idOf, s.graph, evs[..i]))
    ensures IngestAll(cfg, s, evs).ok ==> |IngestAll(cfg, s, evs).states| == |evs| + 1
    decreases |evs|
  {
    if Accepts(cfg, s.graph, evs) {
      var next := s.(graph := Absorb(cfg.idOf, s.graph, evs[0]));
      assert IngestAll(cfg, s, evs).states == [s] + IngestAll(cfg, next, evs[1..]).states;
      IngestAllAbsorbs(cfg, next, evs[1..], if i > 0 then i - 1 else 0);
      if i > 0 {
        assert evs[..i][0] == evs[0] && evs[..i][1..] == evs[1..][..i - 1];
      }
    }
  }

  lemma {:induction false} AbsorbAllGrows(idOf: IdOf, g: Graph, evs: seq<Event>)
    ensures Grows(g.rows, AbsorbAll(idOf, g, evs).rows)
    decreases |evs|
  {
    if evs != [] {
      var g' := Absorb(idOf, g, evs[0]);
      AbsorbGrows(idOf, g, evs[0]);
      AbsorbAllGrows(idOf, g', evs[1..]);
      GrowsTransitive(g.rows, g'.rows, AbsorbAll(idOf, g', evs[1..]).rows);
    }
  }

  /** What was ingested first is still known when the rest is. */
  lemma {:induction false} FirstStaysKnown(idOf: IdOf, g: Graph, ev: Event, later: seq<Event>)
    requires Ingest(idOf, g, ev).Ok?
    requires AllKnown(idOf, AbsorbAll(idOf, Absorb(idOf, g, ev), later), later)
    ensures AllKnown(idOf, AbsorbAll(idOf, g, [ev] + later), [ev] + later)
  {
    var g1 := Absorb(idOf, g, ev);
    var g' := AbsorbAll(idOf, g1, later);
    IngestMakesKnown(idOf, g, ev);
    AbsorbAllGrows(idOf, g1, later);
    GrowsKeepsKnown(idOf, g1.rows, g'.rows, ev);
    assert ([ev] + later)[1..] == later;
  }

  /** Each of the first i events is known in that state. */
  lemma {:induction false} IngestAllKnowsFirst(cfg: Config, s: VaultState, evs: seq<Event>, i: nat)
    requires i < |IngestAll(cfg, s, evs).states| && i <= |evs|
    ensures AllKnown(cfg.idOf, AbsorbAll(cfg.idOf, s.graph, evs[..i]), evs[..i])
    decreases |evs|
  {
    if i > 0 {
      var next := s.(graph := Absorb(cfg.idOf, s.graph, evs[0]));
      assert IngestAll(cfg, s, evs).states == [s] + IngestAll(cfg, next, evs[1..]).states;
      IngestAllKnowsFirst(cfg, next, evs[1..], i - 1);
      FirstStaysKnown(cfg.idOf, s.graph, evs[0], evs[1..][..i - 1]);
      assert evs[..i] == [evs[0]] + evs[1..][..i - 1];
    }
  }

  // ---------------------------------------------------------------------
  // The vault's events in order, and how far a block reaches into them
  // ---------------------------------------------------------------------

  /** Events of one vault in block order. */
  ghost predicate Line(evs: seq<Event>, vault: Word) {
    (forall i :: 0 <= i < |evs| ==> evs[i].content.vault == vault)
    && (forall i, j :: 0 <= i < j < |evs| ==> evs[i].anchor.block <= evs[j].anchor.block)
  }

  function Count(evs: seq<Event>, upto: int): (n: nat)
    ensures n <= |evs|
  {
    if evs == [] || evs[0].anchor.block > upto then 0 else 1 + Count(evs[1..], upto)
  }

  lemma {:induction false} CountSplits(evs: seq<Event>, vault: Word, upto: int, i: nat)
    requires Line(evs, vault) && i < |evs|
    ensures i < Count(evs, upto) <==> evs[i].anchor.block <= upto
  {
    if evs[0].anchor.block <= upto && i > 0 {
      CountSplits(evs[1..], vault, upto, i - 1);
    }
  }

  lemma {:induction false} CountMonotone(evs: seq<Event>, a: int, b: int)
    requires a <= b
    ensures Count(evs, a) <= Count(evs, b)
  {
    if evs != [] && evs[0].anchor.block <= a {
      CountMonotone(evs[1..], a, b);
    }
  }

  lemma {:induction false} PullEverything(evs: seq<Event>, vault: Word, a: int, b: int)
    requires forall e :: e in evs ==> InWindow(e, vault, a, b)
    ensures Pull(evs, vault, a, b) == evs
  {
    if evs != [] {
      assert evs[0] in evs;
      PullEverything(evs[1..], vault, a, b);
    }
  }

  /** A stretch of the line between two blocks: exactly the events of that window. */
  lemma {:induction false} StretchIsWindow(evs: seq<Event>, vault: Word, a: int, b: int)
    requires Line(evs, vault) && a <= b
    ensures Count(evs, a) <= Count(evs, b)
    ensures forall e :: e in evs[..Count(evs, a)] ==> e.anchor.block <= a
    ensures forall e :: e in evs[Count(evs, a)..Count(evs, b)] ==> InWindow(e, vault, a, b)
    ensures forall e :: e in evs[Count(evs, b)..] ==> e.anchor.block > b
  {
    CountMonotone(evs, a, b);
    forall i | 0 <= i < |evs| ensures i < Count(evs, a) <==> evs[i].anchor.block <= a {
      CountSplits(evs, vault, a, i);
    }
    forall i | 0 <= i < |evs| ensures i < Count(evs, b) <==> evs[i].anchor.block <= b {
      CountSplits(evs, vault, b, i);
    }
  }

  /** A window of the log is a stretch of the vault's line. */
  lemma {:induction false} WindowIsStretch(evs: seq<Event>, vault: Word, a: int, b: int)
    requires Line(evs, vault) && a <= b
    ensures Count(evs, a) <= Count(evs, b)
    ensures Pull(evs, vault, a, b) == evs[Count(evs, a)..Count(evs, b)]
  {
    StretchIsWindow(evs, vault, a, b);
    var i, j := Count(evs, a), Count(evs, b);
    assert evs == evs[..i] + (evs[i..j] + evs[j..]);
    PullAppend(evs[..i], evs[i..j] + evs[j..], vault, a, b);
    PullAppend(evs[i..j], evs[j..], vault, a, b);
    PullNothing(evs[..i], vault, a, b);
    PullEverything(evs[i..j], vault, a, b);
    PullNothing(evs[j..], vault, a, b);
  }

  /** The vault's events above `after`, all of them. */
  function LineOf(events: seq<Event>, vault: Word, after: int): seq<Event> {
    Pull(events, vault, after, U64_MAX)
  }

  lemma {:induction false} LineOfIsLine(events: seq<Event>, vault: Word, after: int)
    requires Chronological(events)
    ensures Line(LineOf(events, vault, after), vault)
  {
    if events != [] {
      LineOfIsLine(events[1..], vault, after);
      var rest := LineOf(events[1..], vault, after);
      forall i | 0 <= i < |rest| ensures events[0].anchor.block <= rest[i].anchor.block {
        PullMembers(events[1..], vault, after, U64_MAX, rest[i]);
        var k :| 0 <= k < |events| - 1 && events[k + 1] == rest[i];
        assert Precedes(events[0], events[k + 1]);
      }
    }
  }

  /** A narrower pull of a pull is a pull. */
  lemma {:induction false} PullOfLine(events: seq<Event>, vault: Word, after: int, a: int, b: int)
    requires after <= a && b <= U64_MAX
    ensures Pull(LineOf(events, vault, after), vault, a, b) == Pull(events, vault, a, b)
  {
    if events != [] {
      PullOfLine(events[1..], vault, after, a, b);
      var e, rest := events[0], LineOf(events[1..], vault, after);
      if InWindow(e, vault, after, U64_MAX) {
        assert ([e] + rest)[1..] == rest;
      } else {
        assert [] + rest == rest;
      }
    }
  }

  // ---------------------------------------------------------------------
  // Partly pulled vaults
  // ---------------------------------------------------------------------

  /**
   `x` holds `base` and the first n events of `line`, no more; everything up to its checkpoint is
   among them, nothing above `bound` is.
   */
  ghost predicate HoldsFirst(idOf: IdOf, base: Graph, line: seq<Event>, bound: int, x: VaultState, n: nat) {
    && n <= |line|
    && x.graph == AbsorbAll(idOf, base, line[..n])
    && AllKnown(idOf, x.graph, line[..n])
    && Count(line, x.checkpoint) <= n <= Count(line, bound)
  }

  ghost predicate Partial(idOf: IdOf, base: Graph, line: seq<Event>, bound: int, x: VaultState) {
    exists n: nat :: HoldsFirst(idOf, base, line, bound, x, n)
  }

  /** Re-ingesting a stretch that overlaps what is already there adds exactly the missing part. */
  lemma {:induction false} CatchUp(idOf: IdOf, base: Graph, line: seq<Event>, g: Graph, n: nat, i: nat, m: nat)
    requires i <= n <= |line| && i <= m <= |line|
    requires g == AbsorbAll(idOf, base, line[..n]) && AllKnown(idOf, g, line[..n])
    ensures AbsorbAll(idOf, g, line[i..m]) == AbsorbAll(idOf, base, line[..Max(n, m)])
  {
    if m <= n {
      forall k | 0 <= k < m - i ensures Known(idOf, g.rows, line[i..m][k]) {
        assert line[i..m][k] == line[..n][i + k];
      }
      KnownIsAbsorbed(idOf, g, line[i..m]);
    } else {
      assert line[i..m] == line[i..n] + line[n..m];
      forall k | 0 <= k < n - i ensures Known(idOf, g.rows, line[i..n][k]) {
        assert line[i..n][k] == line[..n][i + k];
      }
      KnownIsAbsorbed(idOf, g, line[i..n]);
      AbsorbAppend(idOf, g, line[i..n], line[n..m]);
      AbsorbAppend(idOf, base, line[..n], line[n..m]);
      assert line[..m] == line[..n] + line[n..m];
    }
  }

  function Max(a: nat, b: nat): nat {
    if a <= b then b else a
  }

  /** Two overlapping known stretches make one. */
  lemma {:induction false} KnownJoin(idOf: IdOf, g: Graph, line: seq<Event>, n: nat, i: nat, m: nat)
    requires i <= n <= |line| && i <= m <= |line|
    requires AllKnown(idOf, g, line[..n]) && AllKnown(idOf, g, line[i..m])
    ensures AllKnown(idOf, g, line[..Max(n, m)])
  {
  }

  lemma {:induction false} KnownKept(idOf: IdOf, g: Graph, g': Graph, evs: seq<Event>)
    requires AllKnown(idOf, g, evs) && Grows(g.rows, g'.rows)
    ensures AllKnown(idOf, g', evs)
  {
  }

  /** Absorbing a stretch that overlaps the first n events leaves the first max(n, m), all known. */
  lemma {:induction false} Overlap(idOf: IdOf, base: Graph, line: seq<Event>, g: Graph, n: nat, i: nat, m: nat,
                                   stretch: seq<Event>)
    requires i <= n <= |line| && i <= m <= |line| && stretch == line[i..m]
    requires g == AbsorbAll(idOf, base, line[..n]) && AllKnown(idOf, g, line[..n])
    requires AllKnown(idOf, AbsorbAll(idOf, g, stretch), stretch)
    ensures AbsorbAll(idOf, g, stretch) == AbsorbAll(idOf, base, line[..Max(n, m)])
    ensures AllKnown(idOf, AbsorbAll(idOf, g, stretch), line[..Max(n, m)])
  {
    var g' := AbsorbAll(idOf, g, stretch);
    CatchUp(idOf, base, line, g, n, i, m);
    AbsorbAllGrows(idOf, g, stretch);
    KnownKept(idOf, g, g', line[..n]);
    KnownJoin(idOf, g', line, n, i, m);
  }

  /** Ingesting the stretch [i, j) of a line whose first n events are there: state k holds one more at most. */
  lemma {:induction false} StretchStates(cfg: Config, base: Graph, line: seq<Event>, s: VaultState, n: nat, i: nat,
                                         j: nat, k: nat, evs: seq<Event>)
    requires i <= n <= |line| && i <= j <= |line| && evs == line[i..j]
    requires s.graph == AbsorbAll(cfg.idOf, base, line[..n]) && AllKnown(cfg.idOf, s.graph, line[..n])
    requires k < |IngestAll(cfg, s, evs).states|
    ensures i + k <= j
    ensures var x := IngestAll(cfg, s, evs).states[k];
            && x == s.(graph := x.graph)
            && x.graph == AbsorbAll(cfg.idOf, base, line[..Max(n, i + k)])
            && AllKnown(cfg.idOf, x.graph, line[..Max(n, i + k)])
  {
    IngestAllAbsorbs(cfg, s, evs, k);
    IngestAllKnowsFirst(cfg, s, evs, k);
    StretchOverlaps(cfg.idOf, base, line, s.graph, n, i, j, k, evs);
  }

  lemma {:induction false} StretchOverlaps(idOf: IdOf, base: Graph, line: seq<Event>, g: Graph, n: nat, i: nat, j: nat,
                                           k: nat, evs: seq<Event>)
    requires i <= n <= |line| && i + k <= j <= |line| && evs == line[i..j]
    requires g == AbsorbAll(idOf, base, line[..n]) && AllKnown(idOf, g, line[..n])
    requires AllKnown(idOf, AbsorbAll(idOf, g, evs[..k]), evs[..k])
    ensures var g' := AbsorbAll(idOf, g, evs[..k]);
            g' == AbsorbAll(idOf, base, line[..Max(n, i + k)]) && AllKnown(idOf, g', line[..Max(n, i + k)])
  {
    FrontOfStretch(line, i, j, k);
    Overlap(idOf, base, line, g, n, i, i + k, evs[..k]);
  }

  lemma {:induction false} FrontOfStretch(line: seq<Event>, i: nat, j: nat, k: nat)
    requires i <= j <= |line| && k <= j - i
    ensures line[i..j][..k] == line[i..i + k]
  {
  }

  /** The same while the stretch begins where the checkpoint reaches. */
  lemma {:induction false} StretchStaysPartial(cfg: Config, base: Graph, line: seq<Event>, bound: int, s: VaultState,
                                               n: nat, j: nat, k: nat, evs: seq<Event>)
    requires HoldsFirst(cfg.idOf, base, line, bound, s, n)
    requires Count(line, s.checkpoint) <= j <= Count(line, bound) && evs == line[Count(line, s.checkpoint)..j]
    requires k < |IngestAll(cfg, s, evs).states|
    ensures HoldsFirst(cfg.idOf, base, line, bound, IngestAll(cfg, s, evs).states[k],
                       Max(n, Count(line, s.checkpoint) + k))
  {
    var i := Count(line, s.checkpoint);
    StretchStates(cfg, base, line, s, n, i, j, k, evs);
    GrownIsHeld(cfg.idOf, base, line, bound, s, n, IngestAll(cfg, s, evs).states[k], Max(n, i + k));
  }

  /** The committed states of one chunk's ingest stay partly pulled. */
  lemma {:induction false} IngestStaysPartial(cfg: Config, base: Graph, line: seq<Event>, bound: int, s: VaultState,
                                              n: nat, start: u64, end: u64, k: nat)
    requires Line(line, s.vaultId) && HoldsFirst(cfg.idOf, base, line, bound, s, n)
    requires s.checkpoint == start < end <= bound
    requires k < |IngestAll(cfg, s, Pull(line, s.vaultId, start, end)).states|
    ensures HoldsFirst(cfg.idOf, base, line, bound,
                       IngestAll(cfg, s, Pull(line, s.vaultId, start, end)).states[k], Max(n, Count(line, start) + k))
  {
    WindowIsStretch(line, s.vaultId, start, end);
    CountMonotone(line, end, bound);
    StretchStaysPartial(cfg, base, line, bound, s, n, Count(line, end), k, Pull(line, s.vaultId, start, end));
  }

  /** More of the line, with the checkpoint where it was. */
  lemma {:induction false} GrownIsHeld(idOf: IdOf, base: Graph, line: seq<Event>, bound: int, s: VaultState, n: nat,
                                       x: VaultState, m: nat)
    requires HoldsFirst(idOf, base, line, bound, s, n) && n <= m <= Count(line, bound)
    requires x == s.(graph := x.graph)
    requires x.graph == AbsorbAll(idOf, base, line[..m]) && AllKnown(idOf, x.graph, line[..m])
    ensures HoldsFirst(idOf, base, line, bound, x, m)
  {
  }

  lemma {:induction false} PruneStaysPartial(idOf: IdOf, base: Graph, line: seq<Event>, bound: int, s: VaultState,
                                             accounts: seq<Word>)
    requires Partial(idOf, base, line, bound, s)
    ensures forall x :: x in PruneAll(s, accounts) ==> Partial(idOf, base, line, bound, x)
  {
    PruneAllFollows(s, accounts);
    var n: nat :| HoldsFirst(idOf, base, line, bound, s, n);
    forall x | x in PruneAll(s, accounts) ensures Partial(idOf, base, line, bound, x) {
      assert HoldsFirst(idOf, base, line, bound, x, n);
    }
  }

  lemma {:induction false} LastIngestStaysPartial(cfg: Config, base: Graph, line: seq<Event>, bound: int,
                                                  s: VaultState, n: nat, start: u64, end: u64)
    requires Line(line, s.vaultId) && HoldsFirst(cfg.idOf, base, line, bound, s, n)
    requires s.checkpoint == start < end <= bound
    requires IngestAll(cfg, s, Pull(line, s.vaultId, start, end)).ok
    ensures HoldsFirst(cfg.idOf, base, line, bound,
                       Final(IngestAll(cfg, s, Pull(line, s.vaultId, start, end))), Max(n, Count(line, end)))
  {
    var evs := Pull(line, s.vaultId, start, end);
    WindowIsStretch(line, s.vaultId, start, end);
    assert |evs| == Count(line, end) - Count(line, start);
    LastOfIngest(cfg, s, evs);
    IngestStaysPartial(cfg, base, line, bound, s, n, start, end, |evs|);
  }

  /** A successful ingest ends in the state after its last event. */
  lemma {:induction false} LastOfIngest(cfg: Config, s: VaultState, evs: seq<Event>)
    requires IngestAll(cfg, s, evs).ok
    ensures |IngestAll(cfg, s, evs).states| == |evs| + 1
    ensures Final(IngestAll(cfg, s, evs)) == IngestAll(cfg, s, evs).states[|evs|]
  {
    IngestAllAbsorbs(cfg, s, evs, 0);
  }

  lemma {:induction false} AdvanceStaysPartial(idOf: IdOf, base: Graph, line: seq<Event>, bound: int, x: VaultState,
                                               m: nat, end: u64)
    requires HoldsFirst(idOf, base, line, bound, x, m) && Count(line, end) <= m
    ensures Partial(idOf, base, line, bound, x.(checkpoint := end))
  {
    assert HoldsFirst(idOf, base, line, bound, x.(checkpoint := end), m);
  }

  lemma {:induction false} ChunkStaysPartial(cfg: Config, events: seq<Event>, faults: set<nat>, base: Graph,
                                             after: int, bound: int, s: VaultState, start: u64, end: u64,
                                             touched: seq<Word>, call: nat)
    requires Chronological(events) && after <= start
    requires Partial(cfg.idOf, base, LineOf(events, s.vaultId, after), bound, s) && s.checkpoint == start < end <= bound
    ensures var t := ChunkTrace(cfg, events, faults, s, start, end, touched, call);
            && (forall x :: x in t.states ==>
                  x.vaultId == s.vaultId && Partial(cfg.idOf, base, LineOf(events, s.vaultId, after), bound, x))
            && (t.ok ==> Final(t).checkpoint == end)
  {
    var line := LineOf(events, s.vaultId, after);
    LineOfIsLine(events, s.vaultId, after);
    PullOfLine(events, s.vaultId, after, start, end);
    var evs := Pull(events, s.vaultId, start, end);
    var ingested := IngestAll(cfg, s, evs);
    IngestAllFollows(cfg, s, evs);
    var n: nat :| HoldsFirst(cfg.idOf, base, line, bound, s, n);
    forall x | x in ingested.states ensures Partial(cfg.idOf, base, line, bound, x) {
      var k: nat :| k < |ingested.states| && ingested.states[k] == x;
      IngestStaysPartial(cfg, base, line, bound, s, n, start, end, k);
    }
    if call !in faults && ingested.ok && Advance(Final(ingested), end).Ok? {
      var advanced := Advance(Final(ingested), end).value;
      LastIngestStaysPartial(cfg, base, line, bound, s, n, start, end);
      AdvanceStaysPartial(cfg.idOf, base, line, bound, Final(ingested), Max(n, Count(line, end)), end);
      PruneStaysPartial(cfg.idOf, base, line, bound, advanced, Touch(touched, evs));
      PruneAllFollows(advanced, Touch(touched, evs));
    }
  }

  /** A pull from its checkpoint, killed or not, leaves the vault partly pulled. */
  lemma {:induction false} PullStaysPartial(cfg: Config, events: seq<Event>, faults: set<nat>, base: Graph,
                                            after: int, bound: int, s: VaultState, start: u64, head: u64,
                                            touched: seq<Word>, call: nat)
    requires Chronological(events) && after <= start && head <= bound
    requires Partial(cfg.idOf, base, LineOf(events, s.vaultId, after), bound, s) && s.checkpoint == start
    ensures var t := PullLoop(cfg, events, faults, s, start, head, touched, call);
            && (forall x :: x in t.states ==>
                  && x.vaultId == s.vaultId && x.checkpoint >= start
                  && Partial(cfg.idOf, base, LineOf(events, s.vaultId, after), bound, x))
            && (t.ok && start < head ==> Final(t).checkpoint == head)
    decreases head as int - start as int
  {
    if start < head {
      var end := ChunkEnd(start, head);
      var chunk := ChunkTrace(cfg, events, faults, s, start, end, touched, call);
      ChunkStaysPartial(cfg, events, faults, base, after, bound, s, start, end, touched, call);
      ChunkNeverGoesBack(cfg, events, faults, s, start, end, touched, call);
      if chunk.ok {
        assert Final(chunk) in chunk.states;
        PullStaysPartial(cfg, events, faults, base, after, bound, Final(chunk), end, head,
                         Touch(touched, Pull(events, s.vaultId, start, end)), call + 1);
      }
    }
  }

  lemma {:induction false} ChunkNeverGoesBack(cfg: Config, events: seq<Event>, faults: set<nat>, s: VaultState,
                                              start: u64, end: u64, touched: seq<Word>, call: nat)
    requires s.checkpoint == start < end
    ensures forall x :: x in ChunkTrace(cfg, events, faults, s, start, end, touched, call).states ==>
              x.checkpoint >= start
  {
    ChunkCovers(cfg, events, faults, s, start, end, touched, call, []);
  }

  // ---------------------------------------------------------------------
  // Any number of interrupted runs
  // ---------------------------------------------------------------------

  /** `early` is the same chain at an earlier time: later events sit above its height. */
  ghost predicate EarlierLog(early: Log, late: Log) {
    && early.events <= late.events
    && early.nextBlock <= late.nextBlock
    && forall i :: |early.events| <= i < |late.events| ==> late.events[i].anchor.block > early.nextBlock
  }

  /** What lands while a pull runs does not change what it fetches. */
  lemma {:induction false} EarlierPull(early: Log, late: Log, vault: Word, after: int, upto: int)
    requires EarlierLog(early, late) && upto <= early.nextBlock
    ensures Pull(early.events, vault, after, upto) == Pull(late.events, vault, after, upto)
  {
    var later := late.events[|early.events|..];
    assert late.events == early.events + later;
    PullAppend(early.events, later, vault, after, upto);
    PullNothing(later, vault, after, upto);
  }

  lemma {:induction false} EarlierPullLoop(cfg: Config, early: Log, late: Log, faults: set<nat>, s: VaultState,
                                           start: u64, head: u64, touched: seq<Word>, call: nat)
    requires EarlierLog(early, late) && head <= early.nextBlock
    ensures PullLoop(cfg, early.events, faults, s, start, head, touched, call)
            == PullLoop(cfg, late.events, faults, s, start, head, touched, call)
    decreases head as int - start as int
  {
    if start < head {
      var end := ChunkEnd(start, head);
      EarlierPull(early, late, s.vaultId, start, end);
      var chunk := ChunkTrace(cfg, early.events, faults, s, start, end, touched, call);
      if chunk.ok {
        EarlierPullLoop(cfg, early, late, faults, Final(chunk), end, head,
                        Touch(touched, Pull(early.events, s.vaultId, start, end)), call + 1);
      }
    }
  }

  /** A pull against `log` with the given adapter faults, killed after `cut` committed states. */
  datatype Attempt = Attempt(log: Log, faults: set<nat>, cut: nat)

  function Cut(t: Trace, cut: nat): VaultState
    requires t.states != []
  {
    t.states[Min(cut, |t.states| - 1)]
  }

  function RunAttempts(cfg: Config, s: VaultState, attempts: seq<Attempt>): VaultState
    decreases |attempts|
  {
    if attempts == [] then s
    else
      var a := attempts[0];
      RunAttempts(cfg, Cut(PullTrace(cfg, a.log, a.faults, s, None, None), a.cut), attempts[1..])
  }

  lemma {:induction false} AttemptsStayPartial(cfg: Config, late: Log, base: Graph, after: int, s: VaultState,
                                               attempts: seq<Attempt>)
    requires Chronological(late.events) && after <= s.checkpoint
    requires forall a :: a in attempts ==> EarlierLog(a.log, late)
    requires Partial(cfg.idOf, base, LineOf(late.events, s.vaultId, after), late.nextBlock, s)
    ensures var x := RunAttempts(cfg, s, attempts);
            x.vaultId == s.vaultId && after <= x.checkpoint
            && Partial(cfg.idOf, base, LineOf(late.events, s.vaultId, after), late.nextBlock, x)
    decreases |attempts|
  {
    if attempts != [] {
      var a := attempts[0];
      var t := PullTrace(cfg, a.log, a.faults, s, None, None);
      assert a in attempts;
      EarlierPullLoop(cfg, a.log, late, a.faults, s, s.checkpoint, a.log.nextBlock, [], 1);
      PullStaysPartial(cfg, late.events, a.faults, base, after, late.nextBlock, s, s.checkpoint, a.log.nextBlock, [],
                       1);
      assert Cut(t, a.cut) in t.states;
      AttemptsStayPartial(cfg, late, base, after, Cut(t, a.cut), attempts[1..]);
    }
  }

  /**
   Convergence. Whatever pulls were attempted before, against earlier heights of the chain, with
   any adapter faults and killed anywhere: one successful pull leaves the graph with exactly the
   vault's events up to the head ingested once in order, and the checkpoint at the head.
   */
  lemma {:induction false} InterruptedPullsConverge(cfg: Config, late: Log, s: VaultState, attempts: seq<Attempt>,
                                                    faults: set<nat>)
    requires Chronological(late.events) && s.checkpoint < late.nextBlock
    requires forall a :: a in attempts ==> EarlierLog(a.log, late)
    requires PullTrace(cfg, late, faults, RunAttempts(cfg, s, attempts), None, None).ok
    ensures var x := Final(PullTrace(cfg, late, faults, RunAttempts(cfg, s, attempts), None, None));
            && x.graph == AbsorbAll(cfg.idOf, s.graph, Pull(late.events, s.vaultId, s.checkpoint, late.nextBlock))
            && x.checkpoint == late.nextBlock
  {
    var line := LineOf(late.events, s.vaultId, s.checkpoint);
    NotYetPulled(cfg.idOf, late, s);
    AttemptsStayPartial(cfg, late, s.graph, s.checkpoint, s, attempts);
    CheckpointBelowHead(cfg, late, s, attempts);
    var y := RunAttempts(cfg, s, attempts);
    PullStaysPartial(cfg, late.events, faults, s.graph, s.checkpoint, late.nextBlock, y, y.checkpoint, late.nextBlock,
                     [], 1);
    var t := PullTrace(cfg, late, faults, y, None, None);
    assert Final(t) in t.states;
    FullyPulled(cfg.idOf, late, s, Final(t));
  }

  /** Nothing pulled yet is a partly pulled vault. */
  lemma {:induction false} NotYetPulled(idOf: IdOf, late: Log, s: VaultState)
    ensures Partial(idOf, s.graph, LineOf(late.events, s.vaultId, s.checkpoint), late.nextBlock, s)
  {
    var line := LineOf(late.events, s.vaultId, s.checkpoint);
    NoneAtOrBelow(late.events, s.vaultId, s.checkpoint);
    assert line[..0] == [];
    assert HoldsFirst(idOf, s.graph, line, late.nextBlock, s, 0);
  }

  /** With the checkpoint at the head, partly pulled is fully pulled. */
  lemma {:induction false} FullyPulled(idOf: IdOf, late: Log, s: VaultState, x: VaultState)
    requires Chronological(late.events) && s.checkpoint <= late.nextBlock == x.checkpoint
    requires Partial(idOf, s.graph, LineOf(late.events, s.vaultId, s.checkpoint), late.nextBlock, x)
    ensures x.graph == AbsorbAll(idOf, s.graph, Pull(late.events, s.vaultId, s.checkpoint, late.nextBlock))
  {
    var line := LineOf(late.events, s.vaultId, s.checkpoint);
    var n: nat :| HoldsFirst(idOf, s.graph, line, late.nextBlock, x, n);
    FrontOfLine(late, s.vaultId, s.checkpoint, n);
  }

  /** The events of the vault's line up to the head are one pull. */
  lemma {:induction false} FrontOfLine(late: Log, vault: Word, after: int, n: nat)
    requires Chronological(late.events) && after <= late.nextBlock
    requires n == Count(LineOf(late.events, vault, after), late.nextBlock)
    ensures LineOf(late.events, vault, after)[..n] == Pull(late.events, vault, after, late.nextBlock)
  {
    var line := LineOf(late.events, vault, after);
    LineOfIsLine(late.events, vault, after);
    PullOfLine(late.events, vault, after, after, late.nextBlock);
    WindowIsStretch(line, vault, after, late.nextBlock);
    NoneAtOrBelow(late.events, vault, after);
    assert line[..n] == line[0..n];
  }

  lemma {:induction false} NoneAtOrBelow(events: seq<Event>, vault: Word, after: int)
    ensures Count(LineOf(events, vault, after), after) == 0
  {
    var line := LineOf(events, vault, after);
    if line != [] {
      PullMembers(events, vault, after, U64_MAX, line[0]);
    }
  }

  lemma {:induction false} CheckpointBelowHead(cfg: Config, late: Log, s: VaultState, attempts: seq<Attempt>)
    requires s.checkpoint <= late.nextBlock
    requires forall a :: a in attempts ==> EarlierLog(a.log, late)
    ensures RunAttempts(cfg, s, attempts).checkpoint <= late.nextBlock
    decreases |attempts|
  {
    if attempts != [] {
      var a := attempts[0];
      var t := PullTrace(cfg, a.log, a.faults, s, None, None);
      assert a in attempts;
      PullLoopCovers(cfg, a.log.events, a.faults, s, s.checkpoint, a.log.nextBlock, [], 1, []);
      assert Cut(t, a.cut) in t.states;
      CheckpointBelowHead(cfg, late, Cut(t, a.cut), attempts[1..]);
    }
  }

  /** In particular the result is that of one unfailed run. */
  lemma {:induction false} SameAsOneUnfailedRun(cfg: Config, late: Log, s: VaultState, attempts: seq<Attempt>,
                                                faults: set<nat>)
    requires Chronological(late.events) && s.checkpoint < late.nextBlock
    requires forall a :: a in attempts ==> EarlierLog(a.log, late)
    requires PullTrace(cfg, late, faults, RunAttempts(cfg, s, attempts), None, None).ok
    requires PullTrace(cfg, late, {}, s, None, None).ok
    ensures var x := Final(PullTrace(cfg, late, faults, RunAttempts(cfg, s, attempts), None, None));
            var once := Final(PullTrace(cfg, late, {}, s, None, None));
            x.graph == once.graph && x.checkpoint == once.checkpoint
  {
    InterruptedPullsConverge(cfg, late, s, attempts, faults);
    InterruptedPullsConverge(cfg, late, s, [], {});
  }
}
