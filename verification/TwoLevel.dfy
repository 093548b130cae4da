/** The two chunk loops together: the 8,000-block pull loop over the adapter's 9,000-block windows. */
module TwoLevel {
  import opened Bytes
  import opened Signing
  import opened ChainLog
  import LogPull
  import Pulls

  /** What the outer loop receives from the adapter, chunk after chunk, until one fails. */
  function Fetched(rpc: LogPull.GetLogs, d: LogPull.Deployment, start: u64, head: u64): Result<seq<Event>,
                   LogPull.PullError>
    decreases head as int - start as int
  {
    if start >= head then Ok([])
    else
      var end := Pulls.ChunkEnd(start, head);
      match LogPull.PullSinceSpec(rpc, d, Ok(head), start, Some(end))
      case Err(e) => Err(e)
      case Ok(events) => LogPull.Onto(events, Fetched(rpc, d, end, head))
  }

  /** A pull from a chronological log is chronological, so nothing is in it twice. */
  lemma {:induction false} PullIsChronological(events: seq<Event>, vault: Word, after: int, upto: int)
    requires Chronological(events)
    ensures Chronological(Pull(events, vault, after, upto))
  {
    if events != [] {
      var rest := Pull(events[1..], vault, after, upto);
      PullIsChronological(events[1..], vault, after, upto);
      forall i | 0 <= i < |rest| ensures Precedes(events[0], rest[i]) {
        PullMembers(events[1..], vault, after, upto, rest[i]);
        var k :| 0 <= k < |events| - 1 && events[k + 1] == rest[i];
      }
    }
  }

  /** One call of the outer loop. */
  lemma {:induction false} OneChunk(rpc: LogPull.GetLogs, d: LogPull.Deployment, raws: seq<LogPull.Placed>, vault: Word,
                                    start: u64, head: u64, end: u64)
    requires LogPull.Honest(rpc, d, raws, vault) && start < end
    ensures var r := LogPull.PullSinceSpec(rpc, d, Ok(head), start, Some(end));
            && (r.Ok? <==> LogPull.Answers(rpc, start + 1, end) && LogPull.Decodable(d, raws, start + 1, end))
            && (r.Ok? ==> r.value == Pull(LogPull.Decoded(d, raws), vault, start, end))
            && (r.Err? && LogPull.Answers(rpc, start + 1, end) ==> r.error == LogPull.Decode)
  {
    LogPull.ChunksAreOnePull(rpc, d, raws, vault, start + 1, end);
  }

  /** The node answers every window of every chunk. */
  ghost predicate AnswersAll(rpc: LogPull.GetLogs, start: u64, head: u64)
    decreases head as int - start as int
  {
    start < head ==>
      LogPull.Answers(rpc, start + 1, Pulls.ChunkEnd(start, head)) && AnswersAll(rpc, Pulls.ChunkEnd(start, head), head)
  }

  /**
   However the two loops cut the range, they succeed exactly when the node answers every window and
   every log of the range decodes, and what they fetch is one pull of `(start, head]`: every event
   of the vault in it once, in block and log-index order. If the node answers and some log of the
   range does not decode, the whole fails with the decode error.
   */
  lemma {:induction false} TwoLevelsAreOnePull(rpc: LogPull.GetLogs, d: LogPull.Deployment, raws: seq<LogPull.Placed>,
                                               vault: Word, start: u64, head: u64)
    requires LogPull.Honest(rpc, d, raws, vault) && start <= head
    ensures var r := Fetched(rpc, d, start, head);
            && (r.Ok? <==> AnswersAll(rpc, start, head) && LogPull.Decodable(d, raws, start + 1, head))
            && (r.Ok? ==> r.value == Pull(LogPull.Decoded(d, raws), vault, start, head) && Chronological(r.value))
            && (r.Err? && AnswersAll(rpc, start, head) ==> r.error == LogPull.Decode)
    decreases head as int - start as int
  {
    var events := LogPull.Decoded(d, raws);
    PullIsChronological(events, vault, start, head);
    if start == head {
      PullNothing(events, vault, start, head);
    } else {
      var end := Pulls.ChunkEnd(start, head);
      OneChunk(rpc, d, raws, vault, start, head, end);
      TwoLevelsAreOnePull(rpc, d, raws, vault, end, head);
      PullSplit(events, vault, start, end, head);
      LogPull.DecodableSplits(d, raws, start + 1, end, head);
    }
  }
}
