/** The append-only revision log as a value, and the reference meaning of a pull from it. */
module ChainLog {
  import opened Bytes
  import opened Signing

  datatype Anchor = Anchor(txHash: Word, block: u64, logIndex: u64, sequence: u64)

  /** A `RevisionPublished` event. */
  datatype Event = Event(content: Content, anchor: Anchor)

  datatype Log = Log(nextSequence: u64, nextBlock: u64, events: seq<Event>)

  const EMPTY := Log(0, 0, [])

  predicate InWindow(e: Event, vault: Word, after: int, upto: int) {
    after < e.anchor.block <= upto && e.content.vault == vault
  }

  /** The events of `vault` in blocks `(after, upto]`, in log order. */
  function Pull(events: seq<Event>, vault: Word, after: int, upto: int): seq<Event> {
    if events == [] then []
    else (if InWindow(events[0], vault, after, upto) then [events[0]] else [])
         + Pull(events[1..], vault, after, upto)
  }

  predicate Precedes(a: Event, b: Event) {
    a.anchor.block < b.anchor.block
    || (a.anchor.block == b.anchor.block && a.anchor.logIndex < b.anchor.logIndex)
  }

  /** Block, then log index, ascending; no two events in one place. */
  ghost predicate Chronological(events: seq<Event>) {
    forall i, j :: 0 <= i < j < |events| ==> Precedes(events[i], events[j])
  }

  lemma {:induction false} PullMembers(events: seq<Event>, vault: Word, after: int, upto: int, e: Event)
    ensures e in Pull(events, vault, after, upto) <==> e in events && InWindow(e, vault, after, upto)
  {
    if events != [] {
      PullMembers(events[1..], vault, after, upto, e);
      assert events == [events[0]] + events[1..];
    }
  }

  lemma {:induction false} PullNothing(events: seq<Event>, vault: Word, after: int, upto: int)
    requires forall e :: e in events ==> !InWindow(e, vault, after, upto)
    ensures Pull(events, vault, after, upto) == []
  {
    if events != [] {
      PullNothing(events[1..], vault, after, upto);
    }
  }

  /** Pulls split: two adjacent windows give what their union gives, in the same order. */
  lemma {:induction false} PullSplit(events: seq<Event>, vault: Word, a: int, b: int, c: int)
    requires Chronological(events) && a <= b <= c
    ensures Pull(events, vault, a, b) + Pull(events, vault, b, c) == Pull(events, vault, a, c)
  {
    if events != [] {
      var e, rest := events[0], events[1..];
      var ab, bc := Pull(rest, vault, a, b), Pull(rest, vault, b, c);
      PullSplit(rest, vault, a, b, c);
      if InWindow(e, vault, a, b) {
        assert ([e] + ab) + bc == [e] + (ab + bc);
      } else if InWindow(e, vault, b, c) {
        LaterIsOutside(events, vault, a, b);
        assert ab == [];
      } else {
        assert [] + ab == ab && [] + bc == bc;
      }
    }
  }

  lemma {:induction false} LaterIsOutside(events: seq<Event>, vault: Word, after: int, upto: int)
    requires Chronological(events) && events != [] && upto < events[0].anchor.block
    ensures Pull(events[1..], vault, after, upto) == []
  {
    forall x | x in events[1..] ensures !InWindow(x, vault, after, upto) {
      var i :| 0 <= i < |events| - 1 && events[i + 1] == x;
      assert Precedes(events[0], events[i + 1]);
    }
    PullNothing(events[1..], vault, after, upto);
  }

  lemma {:induction false} PullAppend(front: seq<Event>, back: seq<Event>, vault: Word, after: int, upto: int)
    ensures Pull(front + back, vault, after, upto) == Pull(front, vault, after, upto) + Pull(back, vault, after, upto)
  {
    if front == [] {
      assert front + back == back;
    } else {
      var first := if InWindow(front[0], vault, after, upto) then [front[0]] else [];
      var a, b := Pull(front[1..], vault, after, upto), Pull(back, vault, after, upto);
      assert (front + back)[0] == front[0] && (front + back)[1..] == front[1..] + back;
      PullAppend(front[1..], back, vault, after, upto);
      assert first + (a + b) == (first + a) + b;
    }
  }

  // ---------------------------------------------------------------------
  // The log as it grows
  // ---------------------------------------------------------------------

  /** Event i has sequence i; events stand in block and log-index order, none above the chain's height. */
  ghost predicate WellFormed(l: Log) {
    && |l.events| == l.nextSequence
    && (forall i :: 0 <= i < |l.events| ==>
          l.events[i].anchor.sequence == i && l.events[i].anchor.block <= l.nextBlock)
    && Chronological(l.events)
  }

  /** An event of a block to come: the contract assigns the sequence, the chain the rest. */
  datatype Entry = Entry(content: Content, txHash: Word, logIndex: u64)

  predicate InOrder(entries: seq<Entry>) {
    forall i, j :: 0 <= i < j < |entries| ==> entries[i].logIndex < entries[j].logIndex
  }

  function EventsOf(entries: seq<Entry>, block: u64, sequence: nat): (events: seq<Event>)
    requires sequence + |entries| <= U64_MAX
    ensures |events| == |entries|
  {
    seq(|entries|, i requires 0 <= i < |entries| =>
      Event(entries[i].content, Anchor(entries[i].txHash, block, entries[i].logIndex, sequence + i)))
  }

  /** A block with any number of the contract's events; None when a counter would overflow. */
  function LandBlock(l: Log, entries: seq<Entry>): Option<Log> {
    if l.nextSequence + |entries| > U64_MAX || l.nextBlock == U64_MAX || !InOrder(entries) then None
    else
      Some(Log(l.nextSequence + |entries|, l.nextBlock + 1,
               l.events + EventsOf(entries, l.nextBlock + 1, l.nextSequence)))
  }

  /** Blocks without an event for this contract. */
  function Mine(l: Log, n: u64): Log {
    l.(nextBlock := SatAdd64(l.nextBlock, n))
  }

  lemma {:induction false} LogStepsKeepForm(l: Log, entries: seq<Entry>, n: u64)
    requires WellFormed(l)
    ensures LandBlock(l, entries).Some? ==> WellFormed(LandBlock(l, entries).value)
    ensures WellFormed(Mine(l, n))
  {
  }

  lemma {:induction false} SamePlaceSameEvent(l: Log, e: Event, e': Event)
    requires WellFormed(l) && e in l.events && e' in l.events
    requires e.anchor.block == e'.anchor.block && e.anchor.logIndex == e'.anchor.logIndex
    ensures e == e'
  {
  }
}
