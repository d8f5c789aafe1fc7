/**
 * The ingest enclave as an object (fog/ingest/enclave/impl/src/lib.rs and rng_store.rs): a table of
 * u64 counters keyed by shared secret, updated in place, cleared together with the egress key.
 *
 * Random choices are parameters: the egress keys drawn, the view keys used for foreign hints, and when
 * the counter table overflows.
 */
module SgxIngestEnclave {
  import opened Prelude
  import opened FogView
  import opened RecoveryTables
  import opened IngestEnclave

  /** Absorbing one output more. */
  lemma AbsorbNext(e: Enclave, c: Chunk, strays: nat -> ViewKey, p: nat, e1: Enclave, rows: seq<ETxOutRecord>)
    requires p < |c.outputs| && Absorb(e, Cut(c, p), strays) == Absorbed(e1, rows)
    ensures Absorb(e, Cut(c, p + 1), strays)
            == Then(Absorbed(e1, rows), c.outputs[p], MetaOf(c, p), strays(c.globalIndex + p))
  {
    assert Cut(c, p + 1) == Push(Cut(c, p), c.outputs[p]);
    AbsorbPush(e, Cut(c, p), c.outputs[p], strays);
  }

  class SgxIngestEnclave {
    var ingressKey: IngressKey
    var egressKey: EgressKey
    var counters: map<Secret, nat>
    ghost var drawn: map<ViewKey, nat>

    /** Every stored counter belongs to the current egress key and is the number of draws, wrapped. */
    ghost predicate Valid()
      reads this
    {
      && (forall secret :: secret in counters ==> secret.egress == egressKey && secret.view in drawn)
      && (forall view :: view in drawn ==>
            SharedSecret(egressKey, view) in counters && counters[SharedSecret(egressKey, view)] == drawn[view] % TWO64)
    }

    ghost function Value(): Enclave
      reads this
    {
      Enclave(ingressKey, egressKey, drawn)
    }

    constructor (ingress: IngressKey, egress: EgressKey)
      ensures Valid() && Value() == Enclave(ingress, egress, map[])
    {
      ingressKey, egressKey, counters, drawn := ingress, egress, map[], map[];
    }

    /** The next output of the rng shared with `view`; its counter moves on, wrapping. If the table overflows on
        the way, the counters of `spill` fall out of it. */
    method NextRngOutput(view: ViewKey, spill: Option<set<ViewKey>>) returns (overflow: bool, output: SearchKey)
      requires Valid()
      modifies this
      ensures Valid() && overflow == spill.Some?
      ensures output == Output(SharedSecret(old(egressKey), view), Drawn(old(Value()), view))
      ensures var counters' := old(drawn)[view := Drawn(old(Value()), view) + 1];
              Value() == old(Value()).(counters := if overflow then counters' - spill.value else counters')
    {
      var secret := SharedSecret(egressKey, view);
      var counter := if secret in counters then counters[secret] else 0;
      WrappedStep(Drawn(Value(), view), 1);
      overflow, output := spill.Some?, Prf(secret, counter);
      counters := counters[secret := (counter + 1) % TWO64];
      drawn := drawn[view := Drawn(Value(), view) + 1];
      if overflow {
        counters := map s | s in counters && s.view !in spill.value :: counters[s];
        drawn := drawn - spill.value;
      }
    }

    /** Draw for the owner of one output, if its hint names one, and encrypt the record to them. None if the
        table overflows. */
    method IngestTxo(txo: TxOut, meta: FogTxOutMetadata, stray: ViewKey, spill: Option<set<ViewKey>>)
      returns (rows: Option<seq<ETxOutRecord>>)
      requires Valid() && (spill.Some? ==> Recipient(ingressKey, txo, stray).Some?)
      modifies this
      ensures Valid() && (rows.None? <==> spill.Some?)
      ensures var one := AbsorbOne(old(Value()), txo, meta, stray);
              && (rows.Some? ==> Absorbed(Value(), rows.value) == one)
              && (rows.None? ==> Value() == one.enclave.(counters := one.enclave.counters - spill.value))
    {
      var recipient := Recipient(ingressKey, txo, stray);
      if recipient.None? {
        return Some([]);
      }
      var overflow, output := NextRngOutput(recipient.value, spill);
      rows := if overflow then None else Some([ETxOutRecord(output, CryptoBox(recipient.value, txo, meta))]);
    }

    /** Run the chunk until the table overflows, if it does. */
    method AttemptIngestTxs(c: Chunk, strays: nat -> ViewKey, overflow: Option<Overflow>)
      returns (r: Option<seq<ETxOutRecord>>)
      requires Valid() && (overflow.Some? ==> OverflowsAtDraws([overflow.value], ingressKey, c))
      modifies this
      ensures Valid() && (r.None? <==> overflow.Some?)
      ensures r.Some? ==> Absorbed(Value(), r.value) == Absorb(old(Value()), c, strays)
      ensures r.None? ==> Value() == Spilled(old(Value()), c, strays, overflow.value)
    {
      ghost var e := Value();
      assert overflow.Some? ==> [overflow.value][0] == overflow.value;
      var rows: seq<ETxOutRecord> := [];
      for p := 0 to |c.outputs|
        invariant Valid() && ingressKey == old(ingressKey) && (overflow.Some? ==> p <= overflow.value.absorbed)
        invariant Absorb(e, Cut(c, p), strays) == Absorbed(Value(), rows)
      {
        AbsorbNext(e, c, strays, p, Value(), rows);
        var spill := if overflow.Some? && overflow.value.absorbed == p then Some(overflow.value.lost) else None;
        var newRows := IngestTxo(c.outputs[p], MetaOf(c, p), strays(c.globalIndex + p), spill);
        if newRows.None? {
          return None;
        }
        rows := rows + newRows.value;
      }
      assert Cut(c, |c.outputs|) == c;
      r := Some(rows);
    }

    /** Clearing the counters coincides with drawing a new egress key. */
    method NewEgressKey(egress: EgressKey)
      modifies this
      ensures Valid() && Value() == Enclave(old(ingressKey), egress, map[])
    {
      egressKey := egress;
      counters, drawn := map[], map[];
    }

    method NewKeys(ingress: IngressKey, egress: EgressKey)
      modifies this
      ensures Valid() && Value() == Enclave(ingress, egress, map[])
    {
      ingressKey := ingress;
      NewEgressKey(egress);
    }

    /** Only the ingress key changes: the rngs go on where they were. */
    method SetIngressPrivateKey(ingress: IngressKey)
      requires Valid()
      modifies this
      ensures Valid() && Value() == old(Value()).(ingress := ingress)
    {
      ingressKey := ingress;
    }

    /** Retry the chunk from its start under a fresh egress key after each overflow, at most
        MAX_CHUNK_RETRIES times. Attempt t overflows as `overflows[t]` says. */
    method IngestTxs(c: Chunk, strays: nat -> ViewKey, overflows: seq<Overflow>)
      returns (r: Option<(seq<ETxOutRecord>, Option<EgressKey>)>)
      requires Valid() && OverflowsAtDraws(overflows, ingressKey, c)
      modifies this
      ensures Valid() && ingressKey == old(ingressKey)
      ensures r.None? <==> |overflows| > MAX_CHUNK_RETRIES
      ensures IngestEnclave.IngestTxs(old(Value()), c, strays, overflows, None, MAX_CHUNK_RETRIES)
              == if r.Some? then Ingested(Value(), r.value.0, r.value.1) else ChunkTooBig(Value())
    {
      ghost var spec := IngestEnclave.IngestTxs(Value(), c, strays, overflows, None, MAX_CHUNK_RETRIES);
      var retries: nat, rotated, t: nat := MAX_CHUNK_RETRIES, None, 0;
      TooBigIff(Value(), c, strays, overflows, None, MAX_CHUNK_RETRIES);
      while true
        invariant Valid() && ingressKey == old(ingressKey) && t <= |overflows| && retries + t == MAX_CHUNK_RETRIES
        invariant spec == IngestEnclave.IngestTxs(Value(), c, strays, overflows[t..], rotated, retries)
        decreases retries
      {
        var rows := AttemptIngestTxs(c, strays, if t < |overflows| then Some(overflows[t]) else None);
        if rows.Some? {
          return Some((rows.value, rotated));
        }
        if retries == 0 {
          return None;
        }
        retries := retries - 1;
        NewEgressKey(overflows[t].nextEgress);
        rotated := Some(overflows[t].nextEgress);
        assert overflows[t..][1..] == overflows[t + 1..];
        t := t + 1;
      }
    }
  }
}
