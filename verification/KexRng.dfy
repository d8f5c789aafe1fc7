/**
 * The key-exchange rng (fog/kex_rng/src/versioned/buffered.rs, macros.rs): a counter-mode prf with
 * the current output cached, a stored form, and dispatch between versions of the prf.
 */
module KexRng {
  import opened Prelude

  type Bytes = seq<bv8>

  /** A KexRngCore: its version number, the sizes of secret and output, and the prf itself. */
  datatype Core = Core(version: nat, secretSize: nat, outputSize: nat, prf: (Bytes, nat) -> Bytes)

  ghost predicate CoreOk(core: Core) {
    forall secret: Bytes, n: nat {:trigger core.prf(secret, n)} :: |core.prf(secret, n)| == core.outputSize
  }

  datatype Rng = Rng(secret: Bytes, counter: nat, buffer: Bytes)
  datatype StoredRng = StoredRng(secret: Bytes, buffer: Bytes, counter: nat, version: nat)
  datatype LoadError = AlgorithmMismatch | LengthMismatch(found: nat, expected: nat) | UnknownVersion(version: nat)

  function FreshRng(core: Core, secret: Bytes): Rng {
    Rng(secret, 0, core.prf(secret, 0))
  }

  /** The counter is a u64; release builds wrap. */
  function Advanced(core: Core, r: Rng): Rng {
    var counter := (r.counter + 1) % TWO64;
    Rng(r.secret, counter, core.prf(r.secret, counter))
  }

  function Store(core: Core, r: Rng): StoredRng {
    StoredRng(r.secret, r.buffer, r.counter, core.version)
  }

  function Load(core: Core, s: StoredRng): Result<Rng, LoadError> {
    if s.version != core.version then Err(AlgorithmMismatch)
    else if |s.buffer| != core.outputSize then Err(LengthMismatch(|s.buffer|, core.outputSize))
    else if |s.secret| != core.secretSize then Err(LengthMismatch(|s.secret|, core.secretSize))
    else Ok(Rng(s.secret, s.counter, s.buffer))
  }

  // ---- the cached output is always the prf at the counter ------------------------------------------------

  ghost predicate Synced(core: Core, r: Rng) {
    r.buffer == core.prf(r.secret, r.counter)
  }

  datatype RngStep = DoAdvance | DoNext | DoClone | DoStoreLoad

  /** An rng together with everything drawn from it by `next`. */
  datatype Drawing = Drawing(rng: Rng, drawn: seq<Bytes>)

  function Do(core: Core, d: Drawing, step: RngStep): Drawing {
    match step
    case DoAdvance => d.(rng := Advanced(core, d.rng))
    case DoNext => Drawing(Advanced(core, d.rng), d.drawn + [d.rng.buffer])
    case DoClone => Drawing(Rng(d.rng.secret, d.rng.counter, d.rng.buffer), d.drawn)
    case DoStoreLoad =>
      var r := Load(core, Store(core, d.rng));
      if r.Ok? then d.(rng := r.value) else d
  }

  function DoAll(core: Core, d: Drawing, steps: seq<RngStep>): Drawing {
    if |steps| == 0 then d else Do(core, DoAll(core, d, steps[..|steps| - 1]), steps[|steps| - 1])
  }

  /** How many outputs the steps consume. */
  function Moves(steps: seq<RngStep>): nat {
    if |steps| == 0 then 0
    else Moves(steps[..|steps| - 1]) + if steps[|steps| - 1].DoAdvance? || steps[|steps| - 1].DoNext? then 1 else 0
  }

  /** The positions of the outputs the steps hand out. */
  function Draws(steps: seq<RngStep>): seq<nat> {
    if |steps| == 0 then []
    else
      var front := steps[..|steps| - 1];
      if steps[|steps| - 1].DoNext? then Draws(front) + [Moves(front)] else Draws(front)
  }

  /** Stream refinement: after any sequence of advance, next, clone and store/load steps from
      `from_secret`, the buffer is the prf at the counter, the counter is the number of outputs
      consumed, and what was handed out are exactly the prf values at the positions consumed by `next`. */
  lemma {:induction false} StreamRefinement(core: Core, secret: Bytes, steps: seq<RngStep>)
    ensures var d := DoAll(core, Drawing(FreshRng(core, secret), []), steps);
            && d.rng.secret == secret
            && d.rng.counter == Moves(steps) % TWO64
            && Synced(core, d.rng)
            && |d.drawn| == |Draws(steps)|
            && forall k :: 0 <= k < |d.drawn| ==> d.drawn[k] == core.prf(secret, Draws(steps)[k] % TWO64)
  {
    if |steps| > 0 {
      StreamRefinement(core, secret, steps[..|steps| - 1]);
      WrappedStep(Moves(steps[..|steps| - 1]), 1);
    }
  }

  /** Drawing only with `next`, in any mixture with clones and store/load steps, the k-th draw is prf(secret, k). */
  lemma {:induction false} KthDrawIsKthOutput(core: Core, secret: Bytes, steps: seq<RngStep>, k: nat)
    requires forall i :: 0 <= i < |steps| ==> !steps[i].DoAdvance?
    requires k < |DoAll(core, Drawing(FreshRng(core, secret), []), steps).drawn|
    ensures DoAll(core, Drawing(FreshRng(core, secret), []), steps).drawn[k] == core.prf(secret, k % TWO64)
  {
    StreamRefinement(core, secret, steps);
    DrawsAreConsecutive(steps, k);
  }

  lemma {:induction false} DrawsAreConsecutive(steps: seq<RngStep>, k: nat)
    requires forall i :: 0 <= i < |steps| ==> !steps[i].DoAdvance?
    ensures |Draws(steps)| == Moves(steps)
    ensures k < |Draws(steps)| ==> Draws(steps)[k] == k
  {
    if |steps| > 0 {
      DrawsAreConsecutive(steps[..|steps| - 1], k);
    }
  }

  // ---- stored form ------------------------------------------------------------------------------------------

  /** load(store(r)) = r for every rng whose secret has the right size and whose buffer is in sync. */
  lemma LoadAfterStore(core: Core, r: Rng)
    requires CoreOk(core) && Synced(core, r) && |r.secret| == core.secretSize
    ensures Load(core, Store(core, r)) == Ok(r)
  {
  }

  /** store(load(s)) = s exactly when the load succeeds, that is when version and both lengths match. */
  lemma StoreAfterLoad(core: Core, s: StoredRng)
    ensures Load(core, s).Ok? <==>
              s.version == core.version && |s.buffer| == core.outputSize && |s.secret| == core.secretSize
    ensures Load(core, s).Ok? ==> Store(core, Load(core, s).value) == s
  {
  }

  /** A load that fails says why: another version, or else the buffer or the secret has the wrong length. */
  lemma LoadErrorSays(core: Core, s: StoredRng)
    ensures Load(core, s) == Err(AlgorithmMismatch) <==> s.version != core.version
    ensures forall found, expected :: Load(core, s) == Err(LengthMismatch(found, expected)) ==>
              && found != expected
              && ((found == |s.buffer| && expected == core.outputSize) ||
                  (found == |s.secret| && expected == core.secretSize && |s.buffer| == core.outputSize))
    ensures forall version :: Load(core, s) != Err(UnknownVersion(version))
  {
  }

  /** Loading does not check the stored buffer: the loaded rng is on its stream exactly when the stored
      buffer was the prf at the stored counter. One step later it is on the stream in any case. */
  lemma LoadTrustsBuffer(core: Core, s: StoredRng)
    requires Load(core, s).Ok?
    ensures Synced(core, Load(core, s).value) <==> s.buffer == core.prf(s.secret, s.counter)
    ensures Synced(core, Advanced(core, Load(core, s).value))
  {
  }

  // ---- versions -----------------------------------------------------------------------------------------------

  /** The multiversion rng: which core, and its state. */
  datatype VersionedRng = VersionedRng(core: Core, inner: Rng)

  ghost predicate DistinctVersions(cores: seq<Core>) {
    forall i, j :: 0 <= i < j < |cores| ==> cores[i].version != cores[j].version
  }

  function StoreVersioned(r: VersionedRng): StoredRng {
    Store(r.core, r.inner)
  }

  /** The first core with the stored version loads it. */
  function LoadVersioned(cores: seq<Core>, s: StoredRng): Result<VersionedRng, LoadError> {
    if |cores| == 0 then Err(UnknownVersion(s.version))
    else if cores[0].version == s.version then
      match Load(cores[0], s)
      case Ok(inner) => Ok(VersionedRng(cores[0], inner))
      case Err(e) => Err(e)
    else LoadVersioned(cores[1..], s)
  }

  /** With distinct version numbers, a stored rng comes back as the same version in the same state. */
  lemma {:induction false} VersionedRoundTrip(cores: seq<Core>, i: nat, r: Rng)
    requires DistinctVersions(cores) && i < |cores|
    requires CoreOk(cores[i]) && Synced(cores[i], r) && |r.secret| == cores[i].secretSize
    ensures LoadVersioned(cores, StoreVersioned(VersionedRng(cores[i], r))) == Ok(VersionedRng(cores[i], r))
  {
    if i > 0 {
      VersionedRoundTrip(cores[1..], i - 1, r);
    }
  }

  /** A stored rng is refused as unknown exactly when no core has its version. */
  lemma {:induction false} UnknownVersionIff(cores: seq<Core>, s: StoredRng)
    ensures LoadVersioned(cores, s) == Err(UnknownVersion(s.version)) <==>
            forall i :: 0 <= i < |cores| ==> cores[i].version != s.version
  {
    if |cores| > 0 && cores[0].version != s.version {
      UnknownVersionIff(cores[1..], s);
      assert forall i :: 1 <= i < |cores| ==> cores[i] == cores[1..][i - 1];
    }
  }

  // ---- the object -----------------------------------------------------------------------------------------------

  class BufferedKexRng {
    const core: Core
    var secret: Bytes
    var counter: nat
    var buffer: Bytes

    function Value(): Rng
      reads this
    {
      Rng(secret, counter, buffer)
    }

    constructor FromSecret(core: Core, src: Bytes)
      ensures this.core == core && Value() == FreshRng(core, src)
    {
      this.core := core;
      secret, counter, buffer := src, 0, core.prf(src, 0);
    }

    method Peek() returns (output: Bytes)
      ensures output == buffer
    {
      output := buffer;
    }

    method Advance()
      modifies this
      ensures Value() == Advanced(core, old(Value()))
    {
      counter := (counter + 1) % TWO64;
      buffer := core.prf(secret, counter);
    }

    /** The iterator: hand out the current output and move on. */
    method Next() returns (output: Bytes)
      modifies this
      ensures Drawing(Value(), [output]) == Do(core, Drawing(old(Value()), []), DoNext)
    {
      output := Peek();
      Advance();
    }

    /** Draw the next `n` outputs, as the client does to form a batch of queries. */
    method Take(n: nat) returns (outputs: seq<Bytes>)
      requires Synced(core, Value()) && counter < TWO64
      modifies this
      ensures Synced(core, Value()) && secret == old(secret) && counter == (old(counter) + n) % TWO64
      ensures |outputs| == n
      ensures forall k :: 0 <= k < n ==> outputs[k] == core.prf(secret, (old(counter) + k) % TWO64)
    {
      outputs := [];
      for k := 0 to n
        invariant Synced(core, Value()) && secret == old(secret) && counter == (old(counter) + k) % TWO64
        invariant |outputs| == k
        invariant forall j :: 0 <= j < k ==> outputs[j] == core.prf(secret, (old(counter) + j) % TWO64)
      {
        WrappedStep(old(counter) + k, 1);
        var output := Next();
        outputs := outputs + [output];
      }
    }
  }
}
