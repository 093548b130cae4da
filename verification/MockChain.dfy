/** The in-memory reference adapter: one block per publish, an eager signature check, an offline switch. */
module MockChain {
  import opened Bytes
  import opened Signing
  import opened ChainLog

  datatype ChainError = Rpc | SignatureInvalid | Wallet

  predicate PlaceLeq(a: Event, b: Event) {
    a.anchor.block < b.anchor.block
    || (a.anchor.block == b.anchor.block && a.anchor.logIndex <= b.anchor.logIndex)
  }

  function InsertByPlace(x: Event, s: seq<Event>): seq<Event> {
    if s == [] || PlaceLeq(x, s[0]) then [x] + s else [s[0]] + InsertByPlace(x, s[1..])
  }

  /** The stable sort by (block, log index) that follows the filter. */
  function SortByPlace(s: seq<Event>): seq<Event> {
    if s == [] then [] else InsertByPlace(s[0], SortByPlace(s[1..]))
  }

  /** On a chronological log the sort after the filter changes nothing. */
  lemma {:induction false} SortAfterPullIsIdentity(events: seq<Event>, vault: Word, after: int, upto: int)
    requires Chronological(events)
    ensures SortByPlace(Pull(events, vault, after, upto)) == Pull(events, vault, after, upto)
  {
    if events != [] {
      var e, rest := events[0], Pull(events[1..], vault, after, upto);
      SortAfterPullIsIdentity(events[1..], vault, after, upto);
      if rest != [] {
        PullMembers(events[1..], vault, after, upto, rest[0]);
        var i :| 0 <= i < |events| - 1 && events[i + 1] == rest[0];
        assert Precedes(events[0], events[i + 1]);
      }
      if InWindow(e, vault, after, upto) {
        assert ([e] + rest)[1..] == rest;
      } else {
        assert [] + rest == rest;
      }
    }
  }

  /** Big-endian bytes, `k` of them. */
  function BeBytes(n: nat, k: nat): (b: Bytes)
    ensures |b| == k
  {
    if k == 0 then [] else BeBytes(n / 256, k - 1) + [n % 256]
  }

  lemma {:induction false} BeBytesInjective(m: nat, n: nat, k: nat)
    requires BeBytes(m, k) == BeBytes(n, k)
    requires m < Pow256(k) && n < Pow256(k)
    ensures m == n
  {
    if k > 0 {
      var x, y := BeBytes(m, k), BeBytes(n, k);
      assert x[..k - 1] == BeBytes(m / 256, k - 1) && y[..k - 1] == BeBytes(n / 256, k - 1);
      assert x[k - 1] == m % 256 && y[k - 1] == n % 256;
      BeBytesInjective(m / 256, n / 256, k - 1);
    }
  }

  /** The synthetic transaction hash: the sequence number in the last eight bytes. */
  function TxHash(sequence: u64): Word {
    seq(24, _ => 0) + BeBytes(sequence, 8)
  }

  lemma {:induction false} TxHashInjective(m: u64, n: u64)
    requires TxHash(m) == TxHash(n)
    ensures m == n
  {
    assert TxHash(m)[24..] == BeBytes(m, 8) && TxHash(n)[24..] == BeBytes(n, 8);
    assert Pow256(8) == U64_MAX + 1 by {
      assert Pow256(4) == 0x1_0000_0000;
      assert Pow256(8) == 256 * (256 * (256 * (256 * Pow256(4))));
    }
    BeBytesInjective(m, n, 8);
  }

  /** A published revision lands in a block of its own; None when a counter would overflow. */
  function Land(l: Log, c: Content): Option<Log> {
    LandBlock(l, [Entry(c, TxHash(l.nextSequence), 0)])
  }

  lemma {:induction false} LandIsOneEvent(l: Log, c: Content)
    requires l.nextSequence < U64_MAX && l.nextBlock < U64_MAX
    ensures var ev := Event(c, Anchor(TxHash(l.nextSequence), l.nextBlock + 1, 0, l.nextSequence));
            Land(l, c) == Some(Log(l.nextSequence + 1, l.nextBlock + 1, l.events + [ev]))
  {
    var entry := Entry(c, TxHash(l.nextSequence), 0);
    assert EventsOf([entry], l.nextBlock + 1, l.nextSequence)
        == [Event(c, Anchor(TxHash(l.nextSequence), l.nextBlock + 1, 0, l.nextSequence))];
  }

  /** Event i has sequence i and sits alone in block i + 1. */
  ghost predicate MockForm(l: Log) {
    WellFormed(l) && l.nextSequence == l.nextBlock
    && forall i :: 0 <= i < |l.events| ==>
         l.events[i].anchor.block == i + 1 && l.events[i].anchor.logIndex == 0 && l.events[i].anchor.txHash == TxHash(i)
  }

  function FindEvent(events: seq<Event>, txHash: Word, logIndex: u64): Option<Event> {
    if events == [] then None
    else if events[0].anchor.txHash == txHash && events[0].anchor.logIndex == logIndex then Some(events[0])
    else FindEvent(events[1..], txHash, logIndex)
  }

  lemma {:induction false} FindFirst(events: seq<Event>, i: nat)
    requires i < |events|
    requires forall j :: 0 <= j < i ==> events[j].anchor.txHash != events[i].anchor.txHash
    ensures FindEvent(events, events[i].anchor.txHash, events[i].anchor.logIndex) == Some(events[i])
  {
    if i > 0 {
      assert events[1..][i - 1] == events[i];
      FindFirst(events[1..], i - 1);
    }
  }

  /** A location is answered with the first event there, and with nothing exactly when there is none. */
  lemma {:induction false} FindAnswers(events: seq<Event>, txHash: Word, logIndex: u64)
    ensures match FindEvent(events, txHash, logIndex)
            case None => forall e :: e in events ==> e.anchor.txHash != txHash || e.anchor.logIndex != logIndex
            case Some(e) => e in events && e.anchor.txHash == txHash && e.anchor.logIndex == logIndex
  {
    if events != [] {
      FindAnswers(events[1..], txHash, logIndex);
      assert events == [events[0]] + events[1..];
    }
  }

  /** Every event is found again by the transaction hash and log index of its own anchor. */
  lemma {:induction false} AnchorsLocateEvents(l: Log, i: nat)
    requires MockForm(l) && i < |l.events|
    ensures FindEvent(l.events, l.events[i].anchor.txHash, l.events[i].anchor.logIndex) == Some(l.events[i])
  {
    forall j | 0 <= j < i ensures l.events[j].anchor.txHash != l.events[i].anchor.txHash {
      if TxHash(j) == TxHash(i) { TxHashInjective(j, i); }
    }
    FindFirst(l.events, i);
  }

  class MockChainAdapter {
    var nextSequence: u64
    var nextBlock: u64
    var events: seq<Event>
    var disconnected: bool

    ghost function View(): Log
      reads this
    {
      Log(nextSequence, nextBlock, events)
    }

    ghost predicate Valid()
      reads this
    {
      MockForm(View())
    }

    constructor ()
      ensures Valid() && View() == EMPTY && !disconnected
    {
      nextSequence, nextBlock, events, disconnected := 0, 0, [], false;
    }

    method SetDisconnected(d: bool)
      requires Valid()
      modifies this`disconnected
      ensures Valid() && disconnected == d
    {
      disconnected := d;
    }

    /** A refused publish changes nothing; an accepted one appends exactly one event and returns its anchor. */
    method Publish(k: Hash, e: Scheme, signed: SignedRevision) returns (r: Result<Anchor, ChainError>)
      requires Valid()
      modifies this`nextSequence, this`nextBlock, this`events
      ensures Valid()
      ensures r.Err? ==> View() == old(View())
      ensures r.Ok? ==> Land(old(View()), signed.content) == Some(View())
                        && events == old(events) + [Event(signed.content, r.value)]
      ensures r == Err(Rpc) <==> disconnected
      ensures r == Err(Wallet) <==>
                !disconnected && VerifySignedRevision(k, e, signed) && old(nextSequence) == U64_MAX
      ensures r == Err(SignatureInvalid) <==> !disconnected && !VerifySignedRevision(k, e, signed)
    {
      if disconnected {
        return Err(Rpc);
      }
      if !VerifySignedRevision(k, e, signed) {
        return Err(SignatureInvalid);
      }
      if nextSequence == U64_MAX {
        return Err(Wallet);
      }
      LandIsOneEvent(View(), signed.content);
      var sequence := nextSequence;
      nextSequence := nextSequence + 1;
      nextBlock := nextBlock + 1;
      var anchor := Anchor(TxHash(sequence), nextBlock, 0, sequence);
      events := events + [Event(signed.content, anchor)];
      return Ok(anchor);
    }

    method PullSince(vault: Word, fromBlock: u64, untilBlock: Option<u64>) returns (r: Result<seq<Event>, ChainError>)
      requires Valid()
      ensures r == if disconnected then Err(Rpc)
                   else Ok(Pull(events, vault, fromBlock, if untilBlock.Some? then untilBlock.value else U64_MAX))
    {
      if disconnected {
        return Err(Rpc);
      }
      var upper := if untilBlock.Some? then untilBlock.value else U64_MAX;
      SortAfterPullIsIdentity(events, vault, fromBlock, upper);
      return Ok(SortByPlace(Pull(events, vault, fromBlock, upper)));
    }

    method GetRevision(txHash: Word, logIndex: u64) returns (r: Result<Option<Event>, ChainError>)
      requires Valid()
      ensures r == if disconnected then Err(Rpc) else Ok(FindEvent(events, txHash, logIndex))
    {
      if disconnected {
        return Err(Rpc);
      }
      return Ok(FindEvent(events, txHash, logIndex));
    }

    method CurrentBlock() returns (r: Result<u64, ChainError>)
      requires Valid()
      ensures r == if disconnected then Err(Rpc) else Ok(nextBlock)
    {
      if disconnected {
        return Err(Rpc);
      }
      return Ok(nextBlock);
    }
  }

  /** A run of publishes from the empty chain, each landing or refused. */
  function RunPublishes(attempts: seq<(Content, bool)>): Log {
    if attempts == [] then EMPTY
    else
      var before := RunPublishes(attempts[..|attempts| - 1]);
      var (content, accepted) := attempts[|attempts| - 1];
      if accepted && Land(before, content).Some? then Land(before, content).value else before
  }

  function AcceptedContents(attempts: seq<(Content, bool)>): seq<Content> {
    if attempts == [] then []
    else
      AcceptedContents(attempts[..|attempts| - 1])
      + (if attempts[|attempts| - 1].1 then [attempts[|attempts| - 1].0] else [])
  }

  /** The log that holds `contents`, in order, with event i in block i + 1. */
  function LogOf(contents: seq<Content>): Log
    requires |contents| < U64_MAX
  {
    Log(|contents|, |contents|,
        seq(|contents|, i requires 0 <= i < |contents| => Event(contents[i], Anchor(TxHash(i), i + 1, 0, i))))
  }

  lemma {:induction false} LogOfGrows(contents: seq<Content>, c: Content)
    requires |contents| + 1 < U64_MAX
    ensures Land(LogOf(contents), c) == Some(LogOf(contents + [c]))
  {
    LandIsOneEvent(LogOf(contents), c);
    assert Land(LogOf(contents), c).value.events == LogOf(contents + [c]).events;
  }

  /** Every run of publishes leaves exactly the accepted contents, in order, one block each. */
  lemma {:induction false} RunsAreAcceptedContents(attempts: seq<(Content, bool)>)
    requires |attempts| < U64_MAX
    ensures |AcceptedContents(attempts)| <= |attempts|
    ensures RunPublishes(attempts) == LogOf(AcceptedContents(attempts))
    ensures MockForm(RunPublishes(attempts)) && Chronological(RunPublishes(attempts).events)
  {
    if attempts != [] {
      var before := attempts[..|attempts| - 1];
      RunsAreAcceptedContents(before);
      if attempts[|attempts| - 1].1 {
        LogOfGrows(AcceptedContents(before), attempts[|attempts| - 1].0);
      } else {
        assert AcceptedContents(before) + [] == AcceptedContents(before);
      }
    }
  }
}
