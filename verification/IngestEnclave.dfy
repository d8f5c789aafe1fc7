/**
 * The ingest enclave as seen by the controller (fog/ingest/enclave/impl/src): it opens each
 * output's hint with the ingress key, draws the next output of the rng it shares with the
 * recipient, and emits one encrypted record. When its counter table overflows it throws the
 * table and the egress key away and starts the chunk again under a fresh egress key.
 */
module IngestEnclave {
  import opened Prelude
  import opened FogView
  import opened RecoveryTables

  /** `counters[u]` is the number of draws made for user `u` under the current egress key. */
  datatype Enclave = Enclave(ingress: IngressKey, egress: EgressKey, counters: map<ViewKey, nat>)

  const MAX_CHUNK_RETRIES: nat := 10

  function Drawn(e: Enclave, view: ViewKey): nat {
    if view in e.counters then e.counters[view] else 0
  }

  /** The n-th output of an rng. The counter is a u64 that wraps. */
  function Output(secret: Secret, n: nat): SearchKey {
    Prf(secret, n % TWO64)
  }

  /** An rng repeats itself after 2^64 outputs, and not before. */
  lemma OutputsRepeat(secret: Secret, m: nat, n: nat)
    requires m < TWO64
    ensures Output(secret, n + TWO64) == Output(secret, n)
    ensures n < TWO64 && Output(secret, m) == Output(secret, n) ==> m == n
  {
    WrappedStep(n, TWO64);
  }

  /** The first n outputs of an rng. */
  function Outputs(secret: Secret, n: nat): (s: seq<SearchKey>)
    ensures |s| == n
  {
    if n == 0 then [] else Outputs(secret, n - 1) + [Output(secret, n - 1)]
  }

  lemma {:induction false} OutputsAt(secret: Secret, n: nat, j: nat)
    requires j < n
    ensures Outputs(secret, n)[j] == Output(secret, j)
  {
    if j < n - 1 {
      OutputsAt(secret, n - 1, j);
    }
  }

  /** The owner named by the hint; a stranger's view key when the hint does not open under this
      ingress key; nobody when it opens to bytes that are not a curve point. */
  function Recipient(ingress: IngressKey, txo: TxOut, stray: ViewKey): Option<ViewKey> {
    if txo.hint.Sealed? && txo.hint.ingress == ingress then txo.hint.view else Some(stray)
  }

  /** A contiguous piece of a block. `strays` gives the random view keys used for outputs at each
      global index whose hint is not ours. */
  datatype Chunk = Chunk(block: nat, globalIndex: nat, timestamp: nat, outputs: seq<TxOut>)

  function Front(c: Chunk): Chunk
    requires |c.outputs| > 0
  {
    c.(outputs := c.outputs[..|c.outputs| - 1])
  }

  datatype Absorbed = Absorbed(enclave: Enclave, rows: seq<ETxOutRecord>)

  function AbsorbOne(e: Enclave, txo: TxOut, meta: FogTxOutMetadata, stray: ViewKey): Absorbed {
    match Recipient(e.ingress, txo, stray)
    case None => Absorbed(e, [])
    case Some(view) =>
      var n := Drawn(e, view);
      Absorbed(e.(counters := e.counters[view := n + 1]),
               [ETxOutRecord(Output(SharedSecret(e.egress, view), n), CryptoBox(view, txo, meta))])
  }

  function MetaOf(c: Chunk, p: nat): FogTxOutMetadata {
    FogTxOutMetadata(c.globalIndex + p, c.block, c.timestamp)
  }

  /** Run a whole chunk through the enclave, in order. */
  function Absorb(e: Enclave, c: Chunk, strays: nat -> ViewKey): (r: Absorbed)
    ensures r.enclave.ingress == e.ingress && r.enclave.egress == e.egress
    decreases |c.outputs|
  {
    if |c.outputs| == 0 then Absorbed(e, [])
    else
      var last := |c.outputs| - 1;
      var before := Absorb(e, Front(c), strays);
      var one := AbsorbOne(before.enclave, c.outputs[last], MetaOf(c, last), strays(c.globalIndex + last));
      Absorbed(one.enclave, before.rows + one.rows)
  }

  // ---- rng streams ----------------------------------------------------------------------------

  /** The search keys of the records made with one rng, in order. */
  function KeysOf(rows: seq<ETxOutRecord>, secret: Secret): seq<SearchKey> {
    if |rows| == 0 then []
    else
      var row := rows[|rows| - 1];
      var rest := KeysOf(rows[..|rows| - 1], secret);
      if row.searchKey.secret == secret then rest + [row.searchKey] else rest
  }

  lemma {:induction false} KeysOfAppend(a: seq<ETxOutRecord>, b: seq<ETxOutRecord>, secret: Secret)
    ensures KeysOf(a + b, secret) == KeysOf(a, secret) + KeysOf(b, secret)
    decreases |b|
  {
    if |b| == 0 {
      assert a + b == a;
    } else {
      KeysOfAppend(a, b[..|b| - 1], secret);
      assert (a + b)[..|a + b| - 1] == a + b[..|b| - 1];
    }
  }

  /** Rows use only the egress keys in `egress`. */
  ghost predicate MadeWith(rows: seq<ETxOutRecord>, egress: set<EgressKey>) {
    forall i :: 0 <= i < |rows| ==> rows[i].searchKey.secret.egress in egress
  }

  lemma {:induction false} KeysOfForeign(rows: seq<ETxOutRecord>, egress: set<EgressKey>, secret: Secret)
    requires MadeWith(rows, egress) && secret.egress !in egress
    ensures KeysOf(rows, secret) == []
  {
    if |rows| > 0 {
      KeysOfForeign(rows[..|rows| - 1], egress, secret);
    }
  }

  /** Going from enclave e to e', the rows are exactly the next outputs of the rng shared with `view`:
      the stream up to the old counter followed by the rows is the stream up to the new counter. */
  ghost predicate Continues(e: Enclave, rows: seq<ETxOutRecord>, e': Enclave, view: ViewKey) {
    var secret := SharedSecret(e.egress, view);
    && e'.egress == e.egress
    && Outputs(secret, Drawn(e, view)) + KeysOf(rows, secret) == Outputs(secret, Drawn(e', view))
    && MadeWith(rows, {e.egress})
  }

  lemma ContinuesTrans(e: Enclave, a: seq<ETxOutRecord>, e1: Enclave, b: seq<ETxOutRecord>, e2: Enclave, view: ViewKey)
    requires Continues(e, a, e1, view) && Continues(e1, b, e2, view)
    ensures Continues(e, a + b, e2, view)
  {
    var secret := SharedSecret(e.egress, view);
    KeysOfAppend(a, b, secret);
    assert Outputs(secret, Drawn(e, view)) + (KeysOf(a, secret) + KeysOf(b, secret))
        == (Outputs(secret, Drawn(e, view)) + KeysOf(a, secret)) + KeysOf(b, secret);
  }

  lemma AbsorbOneDraws(e: Enclave, txo: TxOut, meta: FogTxOutMetadata, stray: ViewKey, view: ViewKey)
    ensures Continues(e, AbsorbOne(e, txo, meta, stray).rows, AbsorbOne(e, txo, meta, stray).enclave, view)
  {
    var rows := AbsorbOne(e, txo, meta, stray).rows;
    if |rows| == 1 {
      assert rows[..0] == [];
    }
  }

  lemma AbsorbSnoc(e: Enclave, c: Chunk, strays: nat -> ViewKey) returns (before: Absorbed, one: Absorbed)
    requires |c.outputs| > 0
    ensures before == Absorb(e, Front(c), strays)
    ensures one == AbsorbOne(before.enclave, c.outputs[|c.outputs| - 1], MetaOf(c, |c.outputs| - 1),
                             strays(c.globalIndex + |c.outputs| - 1))
    ensures Absorb(e, c, strays) == Absorbed(one.enclave, before.rows + one.rows)
  {
    before := Absorb(e, Front(c), strays);
    one := AbsorbOne(before.enclave, c.outputs[|c.outputs| - 1], MetaOf(c, |c.outputs| - 1),
                     strays(c.globalIndex + |c.outputs| - 1));
  }

  function Push(c: Chunk, txo: TxOut): Chunk {
    c.(outputs := c.outputs + [txo])
  }

  /** One output more, after a prefix absorbed to `before`. */
  function Then(before: Absorbed, txo: TxOut, meta: FogTxOutMetadata, stray: ViewKey): Absorbed {
    var one := AbsorbOne(before.enclave, txo, meta, stray);
    Absorbed(one.enclave, before.rows + one.rows)
  }

  /** Absorbing one output more. */
  lemma AbsorbPush(e: Enclave, c: Chunk, txo: TxOut, strays: nat -> ViewKey)
    ensures Absorb(e, Push(c, txo), strays)
            == Then(Absorb(e, c, strays), txo, MetaOf(c, |c.outputs|), strays(c.globalIndex + |c.outputs|))
  {
    assert Front(Push(c, txo)) == c;
  }

  /** Absorbing a chunk draws, for every user, exactly the next outputs of that user's rng. */
  lemma {:induction false} AbsorbDraws(e: Enclave, c: Chunk, strays: nat -> ViewKey, view: ViewKey)
    ensures Continues(e, Absorb(e, c, strays).rows, Absorb(e, c, strays).enclave, view)
    decreases |c.outputs|
  {
    if |c.outputs| == 0 {
      assert Outputs(SharedSecret(e.egress, view), Drawn(e, view)) + []
             == Outputs(SharedSecret(e.egress, view), Drawn(e, view));
    } else {
      AbsorbDraws(e, Front(c), strays, view);
      var before, one := AbsorbSnoc(e, c, strays);
      AbsorbOneDraws(before.enclave, c.outputs[|c.outputs| - 1], MetaOf(c, |c.outputs| - 1),
                     strays(c.globalIndex + |c.outputs| - 1), view);
      ContinuesTrans(e, before.rows, before.enclave, one.rows, one.enclave, view);
    }
  }

  // ---- what the rows say about the outputs --------------------------------------------------------

  /** The records are the outputs of the chunk in order, each encrypted to its recipient with its
      own position in the ledger; outputs with malformed hints have none. */
  ghost predicate Faithful(rows: seq<ETxOutRecord>, ingress: IngressKey, c: Chunk)
    decreases |c.outputs|
  {
    if |c.outputs| == 0 then rows == []
    else
      var last := |c.outputs| - 1;
      var txo := c.outputs[last];
      if Recipient(ingress, txo, 0).None? then Faithful(rows, ingress, Front(c))
      else
        && |rows| > 0
        && var row := rows[|rows| - 1];
        && row.payload.txo == txo
        && row.payload.meta == MetaOf(c, last)
        && row.searchKey.secret.view == row.payload.view
        && Recipient(ingress, txo, row.payload.view) == Some(row.payload.view)
        && Faithful(rows[..|rows| - 1], ingress, Front(c))
  }

  lemma {:induction false} AbsorbFaithful(e: Enclave, c: Chunk, strays: nat -> ViewKey)
    ensures Faithful(Absorb(e, c, strays).rows, e.ingress, c)
    decreases |c.outputs|
  {
    if |c.outputs| > 0 {
      AbsorbFaithful(e, Front(c), strays);
      var last := |c.outputs| - 1;
      var before := Absorb(e, Front(c), strays);
      var rows := Absorb(e, c, strays).rows;
      if Recipient(e.ingress, c.outputs[last], 0).Some? {
        assert rows[..|rows| - 1] == before.rows;
      } else {
        assert rows == before.rows;
      }
    }
  }

  /** The rest of the chunk, starting where `a` ends. */
  predicate Follows(a: Chunk, b: Chunk) {
    b.block == a.block && b.timestamp == a.timestamp && b.globalIndex == a.globalIndex + |a.outputs|
  }

  function Join(a: Chunk, b: Chunk): Chunk {
    a.(outputs := a.outputs + b.outputs)
  }

  lemma {:induction false} FaithfulJoin(ra: seq<ETxOutRecord>, a: Chunk, rb: seq<ETxOutRecord>, b: Chunk,
                                        ingress: IngressKey)
    requires Follows(a, b) && Faithful(ra, ingress, a) && Faithful(rb, ingress, b)
    ensures Faithful(ra + rb, ingress, Join(a, b))
    decreases |b.outputs|
  {
    var ab := Join(a, b);
    if |b.outputs| == 0 {
      assert ra + rb == ra && ab == a;
    } else {
      assert Front(ab) == Join(a, Front(b));
      assert ab.outputs[|ab.outputs| - 1] == b.outputs[|b.outputs| - 1];
      if Recipient(ingress, b.outputs[|b.outputs| - 1], 0).None? {
        FaithfulJoin(ra, a, rb, Front(b), ingress);
      } else {
        FaithfulJoin(ra, a, rb[..|rb| - 1], Front(b), ingress);
        assert (ra + rb)[..|ra + rb| - 1] == ra + rb[..|rb| - 1];
      }
    }
  }

  /** Every output addressed to a user under this ingress key has its record. */
  lemma {:induction false} FaithfulFinds(rows: seq<ETxOutRecord>, ingress: IngressKey, c: Chunk, p: nat, view: ViewKey)
    requires Faithful(rows, ingress, c) && p < |c.outputs| && c.outputs[p].hint == Sealed(ingress, Some(view))
    ensures exists i :: 0 <= i < |rows| && rows[i].payload == CryptoBox(view, c.outputs[p], MetaOf(c, p))
                        && rows[i].searchKey.secret.view == view
    decreases |c.outputs|
  {
    var last := |c.outputs| - 1;
    if p < last {
      var rest := if Recipient(ingress, c.outputs[last], 0).None? then rows else rows[..|rows| - 1];
      FaithfulFinds(rest, ingress, Front(c), p, view);
      var i :| 0 <= i < |rest| && rest[i].payload == CryptoBox(view, c.outputs[p], MetaOf(c, p))
               && rest[i].searchKey.secret.view == view;
      assert rows[i] == rest[i];
    } else {
      assert rows[|rows| - 1].payload == CryptoBox(view, c.outputs[p], MetaOf(c, p));
    }
  }

  // ---- chunking --------------------------------------------------------------------------------------

  ghost predicate Joins(e: Enclave, a: Chunk, b: Chunk, strays: nat -> ViewKey) {
    var first := Absorb(e, a, strays);
    var second := Absorb(first.enclave, b, strays);
    Absorb(e, Join(a, b), strays) == Absorbed(second.enclave, first.rows + second.rows)
  }

  lemma PushJoined(e: Enclave, a: Chunk, b: Chunk, txo: TxOut, strays: nat -> ViewKey)
    requires Follows(a, b)
    ensures Absorb(e, Join(a, Push(b, txo)), strays)
            == Then(Absorb(e, Join(a, b), strays), txo, MetaOf(b, |b.outputs|), strays(b.globalIndex + |b.outputs|))
  {
    var ab := Join(a, b);
    assert MetaOf(ab, |ab.outputs|) == MetaOf(b, |b.outputs|)
           && ab.globalIndex + |ab.outputs| == b.globalIndex + |b.outputs|;
    assert Push(ab, txo) == Join(a, Push(b, txo));
    AbsorbPush(e, ab, txo, strays);
  }

  lemma JoinsPush(e: Enclave, a: Chunk, b: Chunk, txo: TxOut, strays: nat -> ViewKey)
    requires Follows(a, b) && Joins(e, a, b, strays)
    ensures Joins(e, a, Push(b, txo), strays)
  {
    var first := Absorb(e, a, strays);
    PushJoined(e, a, b, txo, strays);
    AbsorbPush(first.enclave, b, txo, strays);
  }

  /** Absorbing a chunk in two pieces is absorbing it at once. */
  lemma {:induction false} AbsorbJoin(e: Enclave, a: Chunk, b: Chunk, strays: nat -> ViewKey)
    requires Follows(a, b)
    ensures Joins(e, a, b, strays)
    decreases |b.outputs|
  {
    if |b.outputs| == 0 {
      assert Join(a, b) == a;
      assert Absorb(e, a, strays).rows + [] == Absorb(e, a, strays).rows;
    } else {
      AbsorbJoin(e, a, Front(b), strays);
      JoinsPush(e, a, Front(b), b.outputs[|b.outputs| - 1], strays);
      assert b == Push(Front(b), b.outputs[|b.outputs| - 1]);
    }
  }

  lemma AbsorbTwo(e: Enclave, a: Chunk, e1: Enclave, ra: seq<ETxOutRecord>, b: Chunk, e2: Enclave,
                  rb: seq<ETxOutRecord>, strays: nat -> ViewKey)
    requires Follows(a, b) && Absorb(e, a, strays) == Absorbed(e1, ra) && Absorb(e1, b, strays) == Absorbed(e2, rb)
    ensures Absorb(e, Join(a, b), strays) == Absorbed(e2, ra + rb)
  {
    AbsorbJoin(e, a, b, strays);
    assert Joins(e, a, b, strays);
  }

  lemma RowsAssoc(a: seq<ETxOutRecord>, b: seq<ETxOutRecord>, c: seq<ETxOutRecord>)
    ensures (a + b) + c == a + (b + c)
  {
  }

  // ---- ingest_txs with its retries ----------------------------------------------------------------------

  datatype IngestResult =
    | Ingested(enclave: Enclave, rows: seq<ETxOutRecord>, rotated: Option<EgressKey>)
    | ChunkTooBig(enclave: Enclave)

  /** `overflows[t]` says that attempt t absorbed a prefix of the chunk and overflowed with the draw for the next
      output, which counters the table then lost, the new one or others, and which fresh egress key the
      enclave drew next; the attempt after the last overflow succeeds. */
  datatype Overflow = Overflow(absorbed: nat, lost: set<ViewKey>, nextEgress: EgressKey)

  /** Only a draw can overflow the table, and an output draws if its hint names a curve point. */
  ghost predicate OverflowsAtDraws(overflows: seq<Overflow>, ingress: IngressKey, c: Chunk) {
    forall t :: 0 <= t < |overflows| ==>
      overflows[t].absorbed < |c.outputs| && Recipient(ingress, c.outputs[overflows[t].absorbed], 0).Some?
  }

  /** What an overflow leaves in the table. */
  function Spilled(e: Enclave, c: Chunk, strays: nat -> ViewKey, o: Overflow): Enclave {
    var drawn := Absorb(e, Cut(c, o.absorbed + 1), strays).enclave;
    drawn.(counters := drawn.counters - o.lost)
  }

  function Cut(c: Chunk, n: nat): Chunk {
    c.(outputs := c.outputs[..Min(n, |c.outputs|)])
  }

  function IngestTxs(e: Enclave, c: Chunk, strays: nat -> ViewKey, overflows: seq<Overflow>,
                     rotated: Option<EgressKey>, retries: nat)
    : IngestResult
    decreases |overflows|
  {
    if |overflows| == 0 then
      var r := Absorb(e, c, strays);
      Ingested(r.enclave, r.rows, rotated)
    else if retries == 0 then
      ChunkTooBig(Spilled(e, c, strays, overflows[0]))
    else
      var next := overflows[0].nextEgress;
      IngestTxs(Enclave(e.ingress, next, map[]), c, strays, overflows[1..], Some(next), retries - 1)
  }

  /** Rotation discards everything drawn for the chunk before it: the chunk's rows are all made, from
      the first output on, with the last fresh egress key, and that key is the one announced. */
  lemma {:induction false} RotationRestartsChunk(e: Enclave, c: Chunk, strays: nat -> ViewKey,
                                                 overflows: seq<Overflow>, rotated: Option<EgressKey>, retries: nat)
    requires 0 < |overflows| <= retries
    ensures var egress := overflows[|overflows| - 1].nextEgress;
            var r := Absorb(Enclave(e.ingress, egress, map[]), c, strays);
            IngestTxs(e, c, strays, overflows, rotated, retries) == Ingested(r.enclave, r.rows, Some(egress))
    decreases |overflows|
  {
    if |overflows| > 1 {
      RotationRestartsChunk(Enclave(e.ingress, overflows[0].nextEgress, map[]), c, strays, overflows[1..],
                            Some(overflows[0].nextEgress), retries - 1);
    }
  }

  /** The enclave gives up exactly when the chunk overflows more often than it may be retried. */
  lemma {:induction false} TooBigIff(e: Enclave, c: Chunk, strays: nat -> ViewKey, overflows: seq<Overflow>,
                                     rotated: Option<EgressKey>, retries: nat)
    ensures IngestTxs(e, c, strays, overflows, rotated, retries).ChunkTooBig? <==> |overflows| > retries
    decreases |overflows|
  {
    if |overflows| > 0 && retries > 0 {
      TooBigIff(Enclave(e.ingress, overflows[0].nextEgress, map[]), c, strays, overflows[1..],
                Some(overflows[0].nextEgress), retries - 1);
    }
  }

  /** An enclave that gives up is left under the last egress key it drew, with what the last attempt drew and
      the overflow left. */
  lemma {:induction false} TooBigLeaves(e: Enclave, c: Chunk, strays: nat -> ViewKey, overflows: seq<Overflow>,
                                        rotated: Option<EgressKey>, retries: nat)
    requires 0 < retries < |overflows|
    ensures IngestTxs(e, c, strays, overflows, rotated, retries)
            == ChunkTooBig(Spilled(Enclave(e.ingress, overflows[retries - 1].nextEgress, map[]), c, strays,
                                   overflows[retries]))
    decreases retries
  {
    if retries > 1 {
      TooBigLeaves(Enclave(e.ingress, overflows[0].nextEgress, map[]), c, strays, overflows[1..],
                   Some(overflows[0].nextEgress), retries - 1);
    }
  }
}
