/**
 `BaseSepoliaAdapter::pull_since`: an event-log query in windows of 9,000 blocks over an RPC node
 that may fail and may splice logs of other contracts into its answers.
 */
module LogPull {
  import opened Bytes
  import opened Signing
  import opened ChainLog

  const LOG_BLOCK_CHUNK := 9_000

  type Address = Bytes

  /** A log as the node returns it; the optional fields may be missing. */
  datatype RawLog = RawLog(
    emitter: Address, decoded: Option<Content>, sequence: nat,
    block: Option<u64>, logIndex: Option<u64>, txHash: Option<Word>)

  datatype PullError = Rpc | Decode

  /** The node's answer to a query for blocks `lo..=hi` of one vault. */
  type GetLogs = (u64, u64) -> Result<seq<RawLog>, PullError>

  /** The contract's address and the check that a device id is a canonical Ed25519 key. */
  datatype Deployment = Deployment(contract: Address, canonicalKey: Word -> bool)

  function DecodeLog(d: Deployment, l: RawLog): Result<Event, PullError> {
    if l.decoded.None? || l.sequence > U64_MAX || l.block.None? || l.logIndex.None? || l.txHash.None?
    then Err(Decode)
    else if !d.canonicalKey(l.decoded.value.device) then Err(Decode)
    else Ok(Event(l.decoded.value, Anchor(l.txHash.value, l.block.value, l.logIndex.value, l.sequence)))
  }

  /** The logs the contract itself emitted. */
  function Native(d: Deployment, logs: seq<RawLog>): seq<RawLog> {
    if logs == [] then []
    else (if logs[0].emitter == d.contract then [logs[0]] else []) + Native(d, logs[1..])
  }

  /** Decodes in order; the first failure decides. */
  function DecodeAll(d: Deployment, logs: seq<RawLog>): Result<seq<Event>, PullError> {
    if logs == [] then Ok([])
    else match DecodeLog(d, logs[0])
      case Err(e) => Err(e)
      case Ok(event) =>
        Onto([event], DecodeAll(d, logs[1..]))
  }

  function Onto(front: seq<Event>, r: Result<seq<Event>, PullError>): Result<seq<Event>, PullError> {
    if r.Ok? then Ok(front + r.value) else r
  }

  lemma {:induction false} OntoOnto(a: seq<Event>, b: seq<Event>, r: Result<seq<Event>, PullError>)
    ensures Onto(a, Onto(b, r)) == Onto(a + b, r)
  {
    if r.Ok? {
      assert a + (b + r.value) == (a + b) + r.value;
    }
  }

  lemma {:induction false} OntoNothing(r: Result<seq<Event>, PullError>)
    ensures Onto([], r) == r
  {
    if r.Ok? {
      assert [] + r.value == r.value;
    }
  }

  function ChunkEnd(cursor: u64, upto: u64): (end: u64)
    requires cursor <= upto
    ensures cursor <= end <= upto
    ensures end == upto || end - cursor + 1 == LOG_BLOCK_CHUNK
    ensures end - cursor + 1 <= LOG_BLOCK_CHUNK
  {
    Min(SatAdd64(cursor, LOG_BLOCK_CHUNK - 1), upto)
  }

  /** The chunk loop from `cursor` on. */
  function ChunkedPull(rpc: GetLogs, d: Deployment, cursor: u64, upto: u64): Result<seq<Event>, PullError>
    requires cursor <= upto
    decreases upto as int - cursor as int
  {
    var end := ChunkEnd(cursor, upto);
    match rpc(cursor, end)
    case Err(_) => Err(Rpc)
    case Ok(logs) =>
      match DecodeAll(d, Native(d, logs))
      case Err(e) => Err(e)
      case Ok(events) =>
        if end == upto then Ok(events)
        else Onto(events, ChunkedPull(rpc, d, end + 1, upto))
  }

  /** `from_block` is exclusive for the caller, inclusive for the node. */
  function PullSinceSpec(rpc: GetLogs, d: Deployment, head: Result<u64, PullError>, fromBlock: u64,
                         untilBlock: Option<u64>):
    Result<seq<Event>, PullError>
  {
    if untilBlock.None? && head.Err? then Err(Rpc)
    else
      var upto := if untilBlock.Some? then untilBlock.value else head.value;
      var cursor := SatAdd64(fromBlock, 1);
      if cursor > upto then Ok([]) else ChunkedPull(rpc, d, cursor, upto)
  }

  /** One answer's logs, checked and decoded one by one. */
  method DecodeChunk(d: Deployment, logs: seq<RawLog>) returns (r: Result<seq<Event>, PullError>)
    ensures r == DecodeAll(d, Native(d, logs))
  {
    var out: seq<Event> := [];
    OntoNothing(DecodeAll(d, Native(d, logs)));
    assert logs[0..] == logs;
    for i := 0 to |logs|
      invariant DecodeAll(d, Native(d, logs)) == Onto(out, DecodeAll(d, Native(d, logs[i..])))
    {
      ghost var later := Native(d, logs[i + 1..]);
      assert logs[i..][1..] == logs[i + 1..];
      if logs[i].emitter != d.contract {
        assert Native(d, logs[i..]) == [] + later == later;
        continue;
      }
      assert ([logs[i]] + later)[1..] == later;
      var event := DecodeLog(d, logs[i]);
      if event.Err? {
        return Err(event.error);
      }
      OntoOnto(out, [event.value], DecodeAll(d, later));
      out := out + [event.value];
    }
    assert out + [] == out;
    return Ok(out);
  }

  /** One window's share of the loop. */
  lemma {:induction false} ChunkStep(rpc: GetLogs, d: Deployment, cursor: u64, upto: u64, out: seq<Event>,
                                     whole: Result<seq<Event>, PullError>)
    requires cursor <= upto && whole == Onto(out, ChunkedPull(rpc, d, cursor, upto))
    ensures var end := ChunkEnd(cursor, upto);
            match rpc(cursor, end)
            case Err(_) => whole == Err(Rpc)
            case Ok(logs) =>
              match DecodeAll(d, Native(d, logs))
              case Err(e) => whole == Err(e)
              case Ok(events) =>
                if end == upto then whole == Ok(out + events)
                else whole == Onto(out + events, ChunkedPull(rpc, d, end + 1, upto))
  {
    var end := ChunkEnd(cursor, upto);
    if rpc(cursor, end).Ok? && end < upto {
      var events := DecodeAll(d, Native(d, rpc(cursor, end).value));
      if events.Ok? {
        OntoOnto(out, events.value, ChunkedPull(rpc, d, end + 1, upto));
      }
    }
  }

  method PullSince(rpc: GetLogs, d: Deployment, head: Result<u64, PullError>, fromBlock: u64, untilBlock: Option<u64>)
    returns (r: Result<seq<Event>, PullError>)
    ensures r == PullSinceSpec(rpc, d, head, fromBlock, untilBlock)
  {
    var upto: u64;
    if untilBlock.Some? {
      upto := untilBlock.value;
    } else if head.Ok? {
      upto := head.value;
    } else {
      return Err(Rpc);
    }
    var cursor := SatAdd64(fromBlock, 1);
    if cursor > upto {
      return Ok([]);
    }
    ghost var whole := ChunkedPull(rpc, d, cursor, upto);
    OntoNothing(whole);
    var out: seq<Event> := [];
    while cursor <= upto
      invariant cursor <= upto
      invariant whole == Onto(out, ChunkedPull(rpc, d, cursor, upto))
      decreases upto as int - cursor as int
    {
      ChunkStep(rpc, d, cursor, upto, out, whole);
      var chunkEnd := ChunkEnd(cursor, upto);
      var logs := rpc(cursor, chunkEnd);
      if logs.Err? {
        return Err(Rpc);
      }
      var events := DecodeChunk(d, logs.value);
      if events.Err? {
        return Err(events.error);
      }
      out := out + events.value;
      if chunkEnd == upto {
        break;
      }
      cursor := chunkEnd + 1;
    }
    return Ok(out);
  }

  // ---------------------------------------------------------------------
  // Logs of other contracts
  // ---------------------------------------------------------------------

  /** `logs` is `core` with logs of other contracts spliced in anywhere. */
  ghost predicate Spliced(d: Deployment, logs: seq<RawLog>, core: seq<RawLog>) {
    if logs == [] then core == []
    else
      || (core != [] && logs[0] == core[0] && Spliced(d, logs[1..], core[1..]))
      || (logs[0].emitter != d.contract && Spliced(d, logs[1..], core))
  }

  /** What is spliced in leaves no trace. */
  lemma {:induction false} SplicedIsDropped(d: Deployment, logs: seq<RawLog>, core: seq<RawLog>)
    requires Spliced(d, logs, core)
    ensures Native(d, logs) == Native(d, core)
    decreases |logs|
  {
    if logs != [] {
      if core != [] && logs[0] == core[0] && Spliced(d, logs[1..], core[1..]) {
        SplicedIsDropped(d, logs[1..], core[1..]);
      } else {
        SplicedIsDropped(d, logs[1..], core);
        assert [] + Native(d, logs[1..]) == Native(d, logs[1..]);
      }
    }
  }

  /** Logs of the contract alone all stay. */
  lemma {:induction false} OwnLogsStay(d: Deployment, logs: seq<RawLog>)
    requires forall l :: l in logs ==> l.emitter == d.contract
    ensures Native(d, logs) == logs
  {
    if logs != [] {
      assert logs[0] in logs;
      OwnLogsStay(d, logs[1..]);
      assert logs == [logs[0]] + logs[1..];
    }
  }

  /** Two answers that differ only by logs of other contracts. */
  ghost predicate SameButForeign(d: Deployment, a: Result<seq<RawLog>, PullError>, b: Result<seq<RawLog>, PullError>) {
    if a.Ok? && b.Ok? then exists core :: Spliced(d, a.value, core) && Spliced(d, b.value, core)
    else a.Err? && b.Err?
  }

  lemma {:induction false} ForeignChunksDoNotMatter(rpc: GetLogs, rpc': GetLogs, d: Deployment, cursor: u64, upto: u64)
    requires cursor <= upto && forall lo: u64, hi: u64 :: SameButForeign(d, rpc(lo, hi), rpc'(lo, hi))
    ensures ChunkedPull(rpc, d, cursor, upto) == ChunkedPull(rpc', d, cursor, upto)
    decreases upto as int - cursor as int
  {
    var end := ChunkEnd(cursor, upto);
    assert SameButForeign(d, rpc(cursor, end), rpc'(cursor, end));
    if rpc(cursor, end).Ok? {
      var a, b := rpc(cursor, end).value, rpc'(cursor, end).value;
      var core :| Spliced(d, a, core) && Spliced(d, b, core);
      SplicedIsDropped(d, a, core);
      SplicedIsDropped(d, b, core);
      if end < upto {
        ForeignChunksDoNotMatter(rpc, rpc', d, end + 1, upto);
      }
    }
  }

  /** Logs of other contracts, wherever a node splices them in, change no result. */
  lemma {:induction false} ForeignLogsDoNotMatter(rpc: GetLogs, rpc': GetLogs, d: Deployment,
                                                  head: Result<u64, PullError>, fromBlock: u64, untilBlock: Option<u64>)
    requires forall lo: u64, hi: u64 :: SameButForeign(d, rpc(lo, hi), rpc'(lo, hi))
    ensures PullSinceSpec(rpc, d, head, fromBlock, untilBlock) == PullSinceSpec(rpc', d, head, fromBlock, untilBlock)
  {
    var cursor := SatAdd64(fromBlock, 1);
    if untilBlock.Some? && cursor <= untilBlock.value {
      ForeignChunksDoNotMatter(rpc, rpc', d, cursor, untilBlock.value);
    } else if untilBlock.None? && head.Ok? && cursor <= head.value {
      ForeignChunksDoNotMatter(rpc, rpc', d, cursor, head.value);
    }
  }

  /** The event that a complete, well-formed log of the contract stands for. */
  ghost predicate StandsFor(d: Deployment, l: RawLog, e: Event) {
    && l.emitter == d.contract && l.decoded == Some(e.content) && d.canonicalKey(e.content.device)
    && l.sequence == e.anchor.sequence && l.block == Some(e.anchor.block)
    && l.logIndex == Some(e.anchor.logIndex) && l.txHash == Some(e.anchor.txHash)
  }

  lemma {:induction false} NativeIsOwn(d: Deployment, logs: seq<RawLog>, l: RawLog)
    ensures l in Native(d, logs) <==> l in logs && l.emitter == d.contract
  {
    if logs != [] {
      NativeIsOwn(d, logs[1..], l);
      assert logs == [logs[0]] + logs[1..];
    }
  }

  lemma {:induction false} DecodedFrom(d: Deployment, logs: seq<RawLog>, e: Event) returns (l: RawLog)
    requires DecodeAll(d, logs).Ok? && e in DecodeAll(d, logs).value
    ensures l in logs && DecodeLog(d, l) == Ok(e)
  {
    l := logs[0];
    if DecodeLog(d, l) != Ok(e) {
      l := DecodedFrom(d, logs[1..], e);
    }
  }

  /** Every event of a result stands for a log of the contract that the node answered. */
  lemma {:induction false} EventsAreTheContracts(rpc: GetLogs, d: Deployment, cursor: u64, upto: u64, e: Event)
    returns (lo: u64, hi: u64, l: RawLog)
    requires cursor <= upto && ChunkedPull(rpc, d, cursor, upto).Ok? && e in ChunkedPull(rpc, d, cursor, upto).value
    ensures cursor <= lo <= hi <= upto && rpc(lo, hi).Ok? && l in rpc(lo, hi).value && StandsFor(d, l, e)
    decreases upto as int - cursor as int
  {
    lo, hi := cursor, ChunkEnd(cursor, upto);
    var logs := rpc(lo, hi).value;
    var here := DecodeAll(d, Native(d, logs)).value;
    if e in here {
      l := DecodedFrom(d, Native(d, logs), e);
      NativeIsOwn(d, logs, l);
    } else {
      lo, hi, l := EventsAreTheContracts(rpc, d, hi + 1, upto, e);
    }
  }

  /** A log of the contract decodes exactly when it stands for an event, and then to that event. */
  lemma {:induction false} DecodeAnswers(d: Deployment, l: RawLog)
    requires l.emitter == d.contract
    ensures match DecodeLog(d, l)
            case Ok(e) => StandsFor(d, l, e)
            case Err(x) => x == Decode && forall e :: !StandsFor(d, l, e)
  {
  }

  // ---------------------------------------------------------------------
  // Refinement of the simple log
  // ---------------------------------------------------------------------

  /** A log of the contract for the vault, and the block it is in; what the node says of it may be undecodable. */
  datatype Placed = Placed(block: u64, log: RawLog)

  /** The logs of blocks `lo..=hi`. */
  function Window(raws: seq<Placed>, lo: int, hi: int): seq<RawLog> {
    if raws == [] then []
    else (if lo <= raws[0].block <= hi then [raws[0].log] else []) + Window(raws[1..], lo, hi)
  }

  /** The events of the decodable ones. */
  function Decoded(d: Deployment, raws: seq<Placed>): seq<Event> {
    if raws == [] then []
    else
      var first := DecodeLog(d, raws[0].log);
      (if first.Ok? then [first.value] else []) + Decoded(d, raws[1..])
  }

  /** The logs of those blocks all decode: complete fields, a sequence in range, a canonical device id. */
  ghost predicate Decodable(d: Deployment, raws: seq<Placed>, lo: int, hi: int) {
    forall p :: p in raws && lo <= p.block <= hi ==> DecodeLog(d, p.log).Ok?
  }

  /** The contract's logs; what decodes of them is an event of the vault in the log's own block. */
  ghost predicate Consistent(d: Deployment, raws: seq<Placed>, vault: Word) {
    && (forall p :: p in raws ==> p.log.emitter == d.contract)
    && forall p, e :: p in raws && StandsFor(d, p.log, e) ==> e.anchor.block == p.block && e.content.vault == vault
  }

  /** A node that, when it answers, gives the contract's logs of the range, with foreign logs spliced in anywhere. */
  ghost predicate Honest(rpc: GetLogs, d: Deployment, raws: seq<Placed>, vault: Word) {
    && Consistent(d, raws, vault) && Chronological(Decoded(d, raws))
    && forall lo: u64, hi: u64 :: lo <= hi && rpc(lo, hi).Ok? ==>
         Spliced(d, rpc(lo, hi).value, Window(raws, lo, hi))
  }

  lemma {:induction false} WindowIsOwn(d: Deployment, raws: seq<Placed>, lo: int, hi: int)
    requires forall p :: p in raws ==> p.log.emitter == d.contract
    ensures forall l :: l in Window(raws, lo, hi) ==> l.emitter == d.contract
  {
    if raws != [] {
      assert raws[0] in raws;
      WindowIsOwn(d, raws[1..], lo, hi);
    }
  }

  /** The node answers every window of the loop from `cursor` on. */
  ghost predicate Answers(rpc: GetLogs, cursor: u64, upto: u64)
    requires cursor <= upto
    decreases upto as int - cursor as int
  {
    var end := ChunkEnd(cursor, upto);
    rpc(cursor, end).Ok? && (end < upto ==> Answers(rpc, end + 1, upto))
  }

  /** One answer decodes to the reference pull of its blocks, or not at all. */
  lemma {:induction false} WindowDecodes(d: Deployment, raws: seq<Placed>, vault: Word, lo: int, hi: int)
    requires Consistent(d, raws, vault)
    ensures DecodeAll(d, Window(raws, lo, hi))
            == if Decodable(d, raws, lo, hi) then Ok(Pull(Decoded(d, raws), vault, lo - 1, hi)) else Err(Decode)
  {
    if raws != [] {
      var p, rest := raws[0], raws[1..];
      assert raws == [p] + rest;
      assert p in raws;
      WindowDecodes(d, rest, vault, lo, hi);
      DecodeAnswers(d, p.log);
      var first := DecodeLog(d, p.log);
      assert Decodable(d, raws, lo, hi) <==> (lo <= p.block <= hi ==> first.Ok?) && Decodable(d, rest, lo, hi);
      if first.Ok? {
        PullFirst(first.value, Decoded(d, rest), vault, lo - 1, hi);
      } else {
        assert Decoded(d, raws) == [] + Decoded(d, rest) == Decoded(d, rest);
      }
      if lo <= p.block <= hi {
        assert ([p.log] + Window(rest, lo, hi))[1..] == Window(rest, lo, hi);
      } else {
        assert Window(raws, lo, hi) == [] + Window(rest, lo, hi) == Window(rest, lo, hi);
        var tail := Pull(Decoded(d, rest), vault, lo - 1, hi);
        assert [] + tail == tail;
      }
    }
  }

  lemma {:induction false} PullFirst(e: Event, rest: seq<Event>, vault: Word, after: int, upto: int)
    ensures Pull([e] + rest, vault, after, upto)
            == (if InWindow(e, vault, after, upto) then [e] else []) + Pull(rest, vault, after, upto)
  {
    assert ([e] + rest)[1..] == rest;
  }

  lemma {:induction false} DecodableSplits(d: Deployment, raws: seq<Placed>, a: int, b: int, c: int)
    requires a <= b + 1 && b <= c
    ensures Decodable(d, raws, a, c) <==> Decodable(d, raws, a, b) && Decodable(d, raws, b + 1, c)
  {
  }

  lemma {:induction false} OkMeansAnswered(rpc: GetLogs, d: Deployment, cursor: u64, upto: u64)
    requires cursor <= upto && ChunkedPull(rpc, d, cursor, upto).Ok?
    ensures Answers(rpc, cursor, upto)
    decreases upto as int - cursor as int
  {
    var end := ChunkEnd(cursor, upto);
    if end < upto {
      OkMeansAnswered(rpc, d, end + 1, upto);
    }
  }

  lemma {:induction false} OneWindow(rpc: GetLogs, d: Deployment, raws: seq<Placed>, vault: Word, lo: u64, hi: u64)
    requires lo <= hi && Honest(rpc, d, raws, vault) && rpc(lo, hi).Ok?
    ensures DecodeAll(d, Native(d, rpc(lo, hi).value))
            == if Decodable(d, raws, lo, hi) then Ok(Pull(Decoded(d, raws), vault, lo - 1, hi)) else Err(Decode)
  {
    WindowDecodes(d, raws, vault, lo, hi);
    WindowIsOwn(d, raws, lo, hi);
    SplicedIsDropped(d, rpc(lo, hi).value, Window(raws, lo, hi));
    OwnLogsStay(d, Window(raws, lo, hi));
  }

  lemma {:induction false} AnsweredIsOnePull(rpc: GetLogs, d: Deployment, raws: seq<Placed>, vault: Word, cursor: u64,
                                             upto: u64)
    requires cursor <= upto && Honest(rpc, d, raws, vault) && Answers(rpc, cursor, upto)
    ensures ChunkedPull(rpc, d, cursor, upto)
            == if Decodable(d, raws, cursor, upto) then Ok(Pull(Decoded(d, raws), vault, cursor - 1, upto))
               else Err(Decode)
    decreases upto as int - cursor as int
  {
    var end := ChunkEnd(cursor, upto);
    OneWindow(rpc, d, raws, vault, cursor, end);
    if end < upto {
      AnsweredIsOnePull(rpc, d, raws, vault, end + 1, upto);
      PullSplit(Decoded(d, raws), vault, cursor - 1, end, upto);
      DecodableSplits(d, raws, cursor, end, upto);
    }
  }

  /**
   Whatever the number of windows: the loop returns Ok exactly when the node answers them all and every
   log of the range decodes, and then one reference pull of the range. If the node answers them all
   and some log does not decode, it returns the decode error.
   */
  lemma {:induction false} ChunksAreOnePull(rpc: GetLogs, d: Deployment, raws: seq<Placed>, vault: Word, cursor: u64,
                                            upto: u64)
    requires cursor <= upto && Honest(rpc, d, raws, vault)
    ensures var r := ChunkedPull(rpc, d, cursor, upto);
            && (r.Ok? <==> Answers(rpc, cursor, upto) && Decodable(d, raws, cursor, upto))
            && (r.Ok? ==> r.value == Pull(Decoded(d, raws), vault, cursor - 1, upto))
            && (r.Err? && Answers(rpc, cursor, upto) ==> r.error == Decode)
  {
    if Answers(rpc, cursor, upto) {
      AnsweredIsOnePull(rpc, d, raws, vault, cursor, upto);
    } else if ChunkedPull(rpc, d, cursor, upto).Ok? {
      OkMeansAnswered(rpc, d, cursor, upto);
    }
  }

  /**
   With a node that answers, the adapter fails exactly when a log of the range does not decode, and
   otherwise refines the reference pull, exclusive below and inclusive above, exactly when
   `from_block` is not the last u64, or no event of the vault sits in that last block, or the
   range does not reach it: there the saturated lower bound re-reads the boundary block.
   */
  lemma {:induction false} PullRefinesReference(rpc: GetLogs, d: Deployment, raws: seq<Placed>, vault: Word,
                                                head: Result<u64, PullError>, fromBlock: u64, upto: u64)
    requires Honest(rpc, d, raws, vault)
    requires SatAdd64(fromBlock, 1) <= upto ==> Answers(rpc, SatAdd64(fromBlock, 1), upto)
    ensures var r := PullSinceSpec(rpc, d, head, fromBlock, Some(upto));
            && (r.Ok? <==> Decodable(d, raws, SatAdd64(fromBlock, 1), upto))
            && (r.Err? ==> r.error == Decode)
            && (r.Ok? ==>
                  (r.value == Pull(Decoded(d, raws), vault, fromBlock, upto)
                   <==> fromBlock < U64_MAX || upto < U64_MAX
                        || forall e :: e in Decoded(d, raws) && e.content.vault == vault ==> e.anchor.block < U64_MAX))
  {
    var cursor, events := SatAdd64(fromBlock, 1), Decoded(d, raws);
    if cursor > upto {
      PullNothing(events, vault, fromBlock, upto);
    } else {
      ChunksAreOnePull(rpc, d, raws, vault, cursor, upto);
      if fromBlock == U64_MAX {
        PullNothing(events, vault, fromBlock, upto);
        if forall e :: e in events && e.content.vault == vault ==> e.anchor.block < U64_MAX {
          PullNothing(events, vault, cursor - 1, upto);
        } else {
          var e :| e in events && e.content.vault == vault && e.anchor.block == U64_MAX;
          PullMembers(events, vault, cursor - 1, upto, e);
        }
      }
    }
  }
}
