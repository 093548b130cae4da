/**
 The vault's persistent state and the store operations that pull and resolve use: revision rows,
 account identities with their freeze flag, stashed merges and the pull checkpoint. Each operation
 is one SQL transaction, so it happens as a whole or not at all.
 */
module Store {
  import opened Bytes
  import opened Signing
  import opened ChainLog

  /** Canonical hashing of a revision's content. */
  type IdOf = Content -> Word

  /** Where a row's event sits on chain, as the revisions table records it. */
  datatype Place = Place(txHash: Word, block: u64, logIndex: u64)

  function PlaceOf(a: Anchor): Place {
    Place(a.txHash, a.block, a.logIndex)
  }

  datatype Row = Row(id: Word, content: Content, place: Option<Place>)

  datatype Identity = Identity(head: Word, frozen: bool)

  /** Revisions in table order, and the account identities they belong to. */
  datatype Graph = Graph(rows: seq<Row>, accounts: map<Word, Identity>)

  /** What a retry needs to rebuild a merge revision bit for bit. */
  datatype Stash = Stash(seed: Word, nonce: Bytes, payload: Bytes, schema: byte)

  datatype VaultState = VaultState(
    vaultId: Word, graph: Graph, stash: map<(Word, Word), Stash>, checkpoint: u64)

  datatype StoreError = AccountNotFound | RevisionNotFound | NotAHead | AuthenticationFailed | Corrupted

  // ---------------------------------------------------------------------
  // Queries
  // ---------------------------------------------------------------------

  predicate HasId(rows: seq<Row>, id: Word) {
    exists r :: r in rows && r.id == id
  }

  predicate HasPlace(rows: seq<Row>, account: Word, p: Place) {
    exists r :: r in rows && r.content.account == account && r.place == Some(p)
  }

  predicate HasChild(rows: seq<Row>, account: Word, id: Word) {
    exists r :: r in rows && r.content.account == account && r.content.parent == id
  }

  /** The revisions of an account without a child in it. */
  function Heads(rows: seq<Row>, account: Word): set<Word> {
    set r | r in rows && r.content.account == account && !HasChild(rows, account, r.id) :: r.id
  }

  /** The columns the content merge compares; the table holds one vault, so its id is not among them. */
  predicate SameBody(c: Content, d: Content) {
    c.(vault := d.vault) == d
  }

  predicate Mergeable(r: Row, c: Content) {
    r.place.None? && SameBody(r.content, c)
  }

  function FindMergeable(rows: seq<Row>, c: Content): (i: Option<nat>)
    ensures i.Some? ==> i.value < |rows| && Mergeable(rows[i.value], c)
    ensures i.None? ==> forall r :: r in rows ==> !Mergeable(r, c)
  {
    if rows == [] then None
    else if Mergeable(rows[0], c) then Some(0)
    else match FindMergeable(rows[1..], c)
      case None => None
      case Some(k) => Some(k + 1)
  }

  /** The account's row with the given id. */
  function FindRow(rows: seq<Row>, account: Word, id: Word): (r: Option<Row>)
    ensures r.Some? ==> r.value in rows && r.value.content.account == account && r.value.id == id
    ensures r.None? ==> forall x :: x in rows && x.content.account == account ==> x.id != id
  {
    if rows == [] then None
    else if rows[0].content.account == account && rows[0].id == id then Some(rows[0])
    else
      assert rows == [rows[0]] + rows[1..];
      FindRow(rows[1..], account, id)
  }

  // ---------------------------------------------------------------------
  // Ingest
  // ---------------------------------------------------------------------

  datatype IngestOutcome = Inserted | AlreadyPresent

  datatype Ingestion = Ingestion(graph: Graph, outcome: IngestOutcome)

  /** Block number and log index are stored in signed 64-bit columns. */
  predicate Storable(a: Anchor) {
    a.block <= I64_MAX && a.logIndex <= I64_MAX
  }

  function Insert(id: Word, g: Graph, ev: Event): Graph {
    var account := ev.content.account;
    var identity := if account in g.accounts then g.accounts[account].(frozen := true) else Identity(id, true);
    Graph(g.rows + [Row(id, ev.content, Some(PlaceOf(ev.anchor)))], g.accounts[account := identity])
  }

  /** `ingest_chain_revision`: by canonical id, by place, by content, or as a new foreign row. */
  function Ingest(idOf: IdOf, g: Graph, ev: Event): Result<Ingestion, StoreError> {
    var id := idOf(ev.content);
    if HasId(g.rows, id) then Ok(Ingestion(g, AlreadyPresent))
    else if !Storable(ev.anchor) then Err(Corrupted)
    else if HasPlace(g.rows, ev.content.account, PlaceOf(ev.anchor)) then Ok(Ingestion(g, AlreadyPresent))
    else match FindMergeable(g.rows, ev.content)
      case Some(i) =>
        Ok(Ingestion(g.(rows := g.rows[i := g.rows[i].(place := Some(PlaceOf(ev.anchor)))]), AlreadyPresent))
      case None => Ok(Ingestion(Insert(id, g, ev), Inserted))
  }

  /**
   A row that is this device's own copy of the event's revision: same body, and not on chain as far
   as the table knows.
   */
  ghost predicate LocalCopy(r: Row, c: Content) {
    && r.place == None
    && r.content.account == c.account && r.content.parent == c.parent && r.content.device == c.device
    && r.content.schema == c.schema && r.content.payload == c.payload
  }

  lemma {:induction false} MergeableIsLocalCopy(r: Row, c: Content)
    ensures Mergeable(r, c) <==> LocalCopy(r, c)
  {
  }

  /**
   What an ingest answers. It is refused for a place that the columns cannot hold, unless the id is
   there already. It inserts exactly when no row has the id, no row of the account has the place and
   no row is a local copy; then the table ends in the event's row and its account is frozen. Otherwise
   accounts and the number of rows stay, and the one row that may change is a local copy, which gets
   the event's place when id and place are new.
   */
  lemma {:induction false} IngestAnswers(idOf: IdOf, g: Graph, ev: Event)
    ensures var c, id := ev.content, idOf(ev.content);
            var place := Place(ev.anchor.txHash, ev.anchor.block, ev.anchor.logIndex);
            var hasId := exists r :: r in g.rows && r.id == id;
            var hasPlace := exists r :: r in g.rows && r.content.account == c.account && r.place == Some(place);
            var hasCopy := exists r :: r in g.rows && LocalCopy(r, c);
            var storable := ev.anchor.block <= I64_MAX && ev.anchor.logIndex <= I64_MAX;
            match Ingest(idOf, g, ev)
            case Err(e) => e == Corrupted && !hasId && !storable
            case Ok(i) =>
              && (hasId || storable)
              && (i.outcome == Inserted <==> !hasId && !hasPlace && !hasCopy)
              && (i.outcome == Inserted ==>
                    && i.graph.rows == g.rows + [Row(id, c, Some(place))]
                    && i.graph.accounts.Keys == g.accounts.Keys + {c.account}
                    && i.graph.accounts[c.account]
                       == Identity(if c.account in g.accounts then g.accounts[c.account].head else id, true)
                    && forall a :: a in g.accounts && a != c.account ==> i.graph.accounts[a] == g.accounts[a])
              && (i.outcome == AlreadyPresent ==> i.graph.accounts == g.accounts && |i.graph.rows| == |g.rows|)
              && (i.outcome == AlreadyPresent && (hasId || hasPlace) ==> i.graph == g)
              && (!hasId && !hasPlace && hasCopy ==>
                    exists k :: 0 <= k < |g.rows| && LocalCopy(g.rows[k], c)
                                && i.graph.rows == g.rows[k := g.rows[k].(place := Some(place))])
  {
    var c := ev.content;
    match FindMergeable(g.rows, c) {
      case Some(k) =>
        assert LocalCopy(g.rows[k], c) && g.rows[k] in g.rows;
      case None =>
        forall r | r in g.rows ensures !LocalCopy(r, c) {
          MergeableIsLocalCopy(r, c);
        }
    }
  }

  /** Heads are the ids of the account's rows that no row of the account names as its parent. */
  lemma {:induction false} HeadsAreChildless(rows: seq<Row>, account: Word, id: Word)
    ensures id in Heads(rows, account)
            <==> (exists r :: r in rows && r.content.account == account && r.id == id)
                 && forall r :: r in rows && r.content.account == account ==> r.content.parent != id
  {
  }

  /** The vault recognises the event: by its id or by its place. */
  predicate Known(idOf: IdOf, rows: seq<Row>, ev: Event) {
    HasId(rows, idOf(ev.content)) || HasPlace(rows, ev.content.account, PlaceOf(ev.anchor))
  }

  /** Rows are only added; an existing one keeps its id, its content and, once set, its place. */
  ghost predicate Grows(rows: seq<Row>, rows': seq<Row>) {
    |rows| <= |rows'|
    && forall i :: 0 <= i < |rows| ==>
         && rows'[i].id == rows[i].id
         && rows'[i].content == rows[i].content
         && (rows[i].place.Some? ==> rows'[i].place == rows[i].place)
  }

  lemma {:induction false} GrowsTransitive(a: seq<Row>, b: seq<Row>, c: seq<Row>)
    requires Grows(a, b) && Grows(b, c)
    ensures Grows(a, c)
  {
  }

  /** What a query finds, it still finds after the table grew. */
  lemma {:induction false} GrowsKeeps(rows: seq<Row>, rows': seq<Row>, r: Row) returns (r': Row)
    requires Grows(rows, rows') && r in rows
    ensures r' in rows' && r'.id == r.id && r'.content == r.content && (r.place.Some? ==> r'.place == r.place)
  {
    var i :| 0 <= i < |rows| && rows[i] == r;
    r' := rows'[i];
  }

  lemma {:induction false} GrowsKeepsKnown(idOf: IdOf, rows: seq<Row>, rows': seq<Row>, ev: Event)
    requires Grows(rows, rows') && Known(idOf, rows, ev)
    ensures Known(idOf, rows', ev)
  {
  }

  lemma {:induction false} GrowsKeepsChild(rows: seq<Row>, rows': seq<Row>, account: Word, id: Word)
    requires Grows(rows, rows') && HasChild(rows, account, id)
    ensures HasChild(rows', account, id)
  {
  }

  /** After a successful ingest the event is known; rows have only grown. */
  lemma {:induction false} IngestMakesKnown(idOf: IdOf, g: Graph, ev: Event)
    requires Ingest(idOf, g, ev).Ok?
    ensures var g' := Ingest(idOf, g, ev).value.graph;
            Grows(g.rows, g'.rows) && Known(idOf, g'.rows, ev)
  {
  }

  /** Ingest is idempotent: a known event changes nothing, however much was ingested since. */
  lemma {:induction false} IngestIsIdempotent(idOf: IdOf, g: Graph, ev: Event, g': Graph)
    requires Ingest(idOf, g, ev).Ok? && Grows(Ingest(idOf, g, ev).value.graph.rows, g'.rows)
    ensures Known(idOf, g'.rows, ev)
    ensures Ingest(idOf, g', ev).Ok? ==> Ingest(idOf, g', ev) == Ok(Ingestion(g', AlreadyPresent))
  {
    IngestMakesKnown(idOf, g, ev);
    GrowsKeepsKnown(idOf, Ingest(idOf, g, ev).value.graph.rows, g'.rows, ev);
  }

  /**
   A genuinely new foreign revision freezes its account and no other, takes its parent's place
   among that account's heads, and leaves the heads of every other account alone.
   */
  lemma {:induction false} InsertMovesHeads(idOf: IdOf, g: Graph, ev: Event, account: Word)
    requires Ingest(idOf, g, ev).Ok? && Ingest(idOf, g, ev).value.outcome == Inserted
    ensures var c, g' := ev.content, Ingest(idOf, g, ev).value.graph;
            && c.account in g'.accounts && g'.accounts[c.account].frozen
            && (account != c.account ==>
                  Heads(g'.rows, account) == Heads(g.rows, account)
                  && (account in g'.accounts <==> account in g.accounts)
                  && (account in g.accounts ==> g'.accounts[account] == g.accounts[account]))
            && Heads(g'.rows, c.account)
               == Heads(g.rows, c.account) - {c.parent}
                  + (if HasChild(g'.rows, c.account, idOf(c)) then {} else {idOf(c)})
  {
  }

  // ---------------------------------------------------------------------
  // Checkpoint, freeze flag, stash
  // ---------------------------------------------------------------------

  /** `advance_last_pulled_block`: a backward move is an error, as is a block the column cannot hold. */
  function Advance(s: VaultState, block: u64): Result<VaultState, StoreError> {
    if block < s.checkpoint then Err(Corrupted)
    else if block == s.checkpoint then Ok(s)
    else if block > I64_MAX then Err(Corrupted)
    else Ok(s.(checkpoint := block))
  }

  /** `prune_orphan_pending_merges`; for an unknown account it fails, which its callers only log. */
  function Prune(s: VaultState, account: Word): VaultState {
    if account !in s.graph.accounts then s
    else
      var heads := Heads(s.graph.rows, account);
      s.(stash := map k | k in s.stash && (k.0 != account || k.1 in heads) :: s.stash[k])
  }

  /** `clear_frozen`: the revision must be a head at the time of the transaction. */
  function ClearFrozen(s: VaultState, account: Word, id: Word): Result<VaultState, StoreError> {
    var g := s.graph;
    if account !in g.accounts then Err(AccountNotFound)
    else if FindRow(g.rows, account, id).None? then Err(RevisionNotFound)
    else if id !in Heads(g.rows, account) then Err(NotAHead)
    else Ok(s.(graph := g.(accounts := g.accounts[account := Identity(id, false)])))
  }

  function StashMerge(s: VaultState, account: Word, target: Word, m: Stash): VaultState {
    s.(stash := s.stash[(account, target) := m])
  }

  function ClearStash(s: VaultState, account: Word, target: Word): VaultState {
    s.(stash := s.stash - {(account, target)})
  }

  function FrozenAccounts(g: Graph): set<Word> {
    set a | a in g.accounts && g.accounts[a].frozen
  }

  /** The list of frozen accounts holds those with the flag set, and no others. */
  lemma {:induction false} FrozenAccountsAreFrozen(g: Graph, account: Word)
    ensures account in FrozenAccounts(g) <==> account in g.accounts && g.accounts[account].frozen
  {
  }

  /**
   What the small operations answer: the checkpoint only moves forward and within its column; a thaw
   needs a known account, a revision of it, and no child of that revision; a prune drops exactly the
   known account's stash rows whose target is not a head.
   */
  lemma {:induction false} SmallOperationsAnswer(s: VaultState, block: u64, account: Word, id: Word, k: (Word, Word))
    ensures Advance(s, block)
            == (if block == s.checkpoint || s.checkpoint < block <= I64_MAX then Ok(s.(checkpoint := block))
                else Err(Corrupted))
    ensures var rows, accounts := s.graph.rows, s.graph.accounts;
            var known := exists r :: r in rows && r.content.account == account && r.id == id;
            var extended := exists r :: r in rows && r.content.account == account && r.content.parent == id;
            match ClearFrozen(s, account, id)
            case Ok(t) =>
              && account in accounts && known && !extended
              && t == s.(graph := s.graph.(accounts := accounts[account := Identity(id, false)]))
            case Err(e) =>
              e == if account !in accounts then AccountNotFound else if !known then RevisionNotFound else NotAHead
    ensures Prune(s, account).graph == s.graph && Prune(s, account).checkpoint == s.checkpoint
    ensures k in Prune(s, account).stash
            <==> k in s.stash && (k.0 != account || account !in s.graph.accounts || k.1 in Heads(s.graph.rows, account))
    ensures k in Prune(s, account).stash ==> Prune(s, account).stash[k] == s.stash[k]
  {
    HeadsAreChildless(s.graph.rows, account, id);
    var r := FindRow(s.graph.rows, account, id);
    if r.Some? {
      assert r.value in s.graph.rows;
    }
  }

  // ---------------------------------------------------------------------
  // The vault object
  // ---------------------------------------------------------------------

  class Vault {
    const vaultId: Word
    var rows: seq<Row>
    var accounts: map<Word, Identity>
    var stash: map<(Word, Word), Stash>
    var checkpoint: u64

    ghost function View(): VaultState
      reads this
    {
      VaultState(vaultId, Graph(rows, accounts), stash, checkpoint)
    }

    constructor (vaultId: Word)
      ensures View() == VaultState(vaultId, Graph([], map[]), map[], 0)
    {
      this.vaultId := vaultId;
      rows, accounts, stash, checkpoint := [], map[], map[], 0;
    }

    method AccountHeads(account: Word) returns (r: Result<set<Word>, StoreError>)
      ensures r == if account in accounts then Ok(Heads(rows, account)) else Err(AccountNotFound)
    {
      if account !in accounts {
        return Err(AccountNotFound);
      }
      return Ok(Heads(rows, account));
    }

    method IngestChainRevision(idOf: IdOf, ev: Event) returns (r: Result<IngestOutcome, StoreError>)
      modifies this`rows, this`accounts
      ensures match Ingest(idOf, old(View()).graph, ev)
              case Err(e) => r == Err(e) && View() == old(View())
              case Ok(i) => r == Ok(i.outcome) && View() == old(View()).(graph := i.graph)
      ensures |rows| == |old(rows)| + (if r == Ok(Inserted) then 1 else 0)
    {
      var id := idOf(ev.content);
      if HasId(rows, id) {
        return Ok(AlreadyPresent);
      }
      if !Storable(ev.anchor) {
        return Err(Corrupted);
      }
      var place := PlaceOf(ev.anchor);
      var account := ev.content.account;
      if HasPlace(rows, account, place) {
        return Ok(AlreadyPresent);
      }
      var mergeTarget := FindMergeable(rows, ev.content);
      if mergeTarget.Some? {
        var i := mergeTarget.value;
        rows := rows[i := rows[i].(place := Some(place))];
        return Ok(AlreadyPresent);
      }
      if account in accounts {
        accounts := accounts[account := accounts[account].(frozen := true)];
      } else {
        accounts := accounts[account := Identity(id, true)];
      }
      rows := rows + [Row(id, ev.content, Some(place))];
      return Ok(Inserted);
    }

    method AdvanceLastPulledBlock(block: u64) returns (r: Result<(), StoreError>)
      modifies this`checkpoint
      ensures match Advance(old(View()), block)
              case Err(e) => r == Err(e) && View() == old(View())
              case Ok(s) => r == Ok(()) && View() == s
    {
      if block < checkpoint {
        return Err(Corrupted);
      }
      if block == checkpoint {
        return Ok(());
      }
      if block > I64_MAX {
        return Err(Corrupted);
      }
      checkpoint := block;
      return Ok(());
    }

    method PruneOrphanPendingMerges(account: Word) returns (r: Result<(), StoreError>)
      modifies this`stash
      ensures View() == Prune(old(View()), account)
      ensures r.Err? <==> account !in accounts
    {
      if account !in accounts {
        return Err(AccountNotFound);
      }
      var heads := Heads(rows, account);
      stash := map k | k in stash && (k.0 != account || k.1 in heads) :: stash[k];
      return Ok(());
    }

    method ClearFrozenFlag(account: Word, id: Word) returns (r: Result<(), StoreError>)
      modifies this`accounts
      ensures match ClearFrozen(old(View()), account, id)
              case Err(e) => r == Err(e) && View() == old(View())
              case Ok(s) => r == Ok(()) && View() == s
    {
      if account !in accounts {
        return Err(AccountNotFound);
      }
      if FindRow(rows, account, id).None? {
        return Err(RevisionNotFound);
      }
      if id !in Heads(rows, account) {
        return Err(NotAHead);
      }
      accounts := accounts[account := Identity(id, false)];
      return Ok(());
    }

    method StashPendingMerge(account: Word, target: Word, m: Stash)
      modifies this`stash
      ensures View() == StashMerge(old(View()), account, target, m)
    {
      stash := stash[(account, target) := m];
    }

    method ClearPendingMerge(account: Word, target: Word)
      modifies this`stash
      ensures View() == ClearStash(old(View()), account, target)
    {
      stash := stash - {(account, target)};
    }
  }
}
