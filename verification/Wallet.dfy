/**
 * The wallet's transaction assembly (fog/sample-paykit/src/client.rs): cut sampled outputs into
 * rings, put each input into a ring of its own, and balance the outputs against the inputs.
 *
 * Values are u64 and wrap. What the transaction library accepts is a parameter; so are the random draws and
 * the ledger server's answers. A panic is an error here.
 */
module Wallet {
  import opened Prelude
  import opened FogView

  type Proof = nat
  type Address = nat
  type Member = (TxOut, Proof)

  datatype OwnedTxOut = OwnedTxOut(globalIndex: nat, txo: TxOut, value: nat)
  datatype Credentials = Credentials(ring: seq<TxOut>, proofs: seq<Proof>, realIndex: nat)
  datatype Payment = Payment(value: nat, to: Address)
  datatype Tx = Tx(inputs: seq<Credentials>, outputs: seq<Payment>, fee: nat, tombstone: nat)

  /** What the transaction library makes of its inputs: which public keys decompress, which rings it
      takes, which outputs and transactions it can build. */
  datatype Library = Library(keyOk: TxOut -> bool, ringOk: Credentials -> bool, outputOk: Payment -> bool,
                             buildOk: Tx -> bool)

  ghost predicate Permissive(lib: Library) {
    && (forall txo :: lib.keyOk(txo)) && (forall c :: lib.ringOk(c))
    && (forall out :: lib.outputOk(out)) && (forall tx :: lib.buildOk(tx))
  }

  datatype WalletError =
    | RingsForInput(rings: nat, inputs: nat)
    | InsufficientFunds
    | BadKey
    | BrokenRing
    | AddOutput
    | BuildFailed
    | InsufficientTxOuts(limit: nat, requested: nat)
    | StillSampling
    | ConnectionFailed
    | UnexpectedOrder
    | ProofFailed
    | OutputMissing

  // ---- proofs and rings from the ledger server ----------------------------------------------------

  /** The server found the output and proved it, found none, or failed to compute the proof. */
  datatype OutputStatus = Exists(member: Member) | DoesNotExist | ProofError
  datatype OutputResult = OutputResult(index: nat, status: OutputStatus)

  /** The server answered the queries in the order in which they were asked, each with an output. */
  predicate Answered(indices: seq<nat>, results: seq<OutputResult>) {
    |results| <= |indices| && forall i :: 0 <= i < |results| ==>
      results[i].index == indices[i] && results[i].status.Exists?
  }

  /** What is wrong with answer n. */
  predicate Wrong(indices: seq<nat>, results: seq<OutputResult>, n: nat, error: WalletError)
    requires n < |results|
  {
    if n >= |indices| || results[n].index != indices[n] then error == UnexpectedOrder
    else
      match results[n].status
      case ProofError => error == ProofFailed
      case DoesNotExist => error == OutputMissing
      case Exists(_) => false
  }

  /** The connection failed, or an answer is wrong and all before it are good. */
  ghost predicate FailsWith(indices: seq<nat>, results: Option<seq<OutputResult>>, error: WalletError) {
    if results.None? then error == ConnectionFailed
    else exists n :: 0 <= n < |results.value| && Answered(indices, results.value[..n])
                     && Wrong(indices, results.value, n, error)
  }

  /** The outputs and proofs in the server's answers, or what is wrong with the first bad one. */
  method MembersIn(indices: seq<nat>, results: Option<seq<OutputResult>>) returns (r: Result<seq<Member>, WalletError>)
    ensures r.Ok? <==> results.Some? && Answered(indices, results.value)
    ensures r.Ok? ==> |r.value| == |results.value|
                      && forall i :: 0 <= i < |r.value| ==> r.value[i] == results.value[i].status.member
    ensures r.Err? ==> FailsWith(indices, results, r.error)
  {
    if results.None? {
      return Err(ConnectionFailed);
    }
    var members: seq<Member> := [];
    for n := 0 to |results.value|
      invariant |members| == n && Answered(indices, results.value[..n])
      invariant forall i :: 0 <= i < n ==> members[i] == results.value[i].status.member
    {
      var result := results.value[n];
      if n >= |indices| || result.index != indices[n] {
        return Err(UnexpectedOrder);
      }
      match result.status {
        case ProofError => return Err(ProofFailed);
        case DoesNotExist => return Err(OutputMissing);
        case Exists(member) => members := members + [member];
      }
    }
    assert results.value[..|results.value|] == results.value;
    r := Ok(members);
  }

  function IndicesOf(inputs: seq<OwnedTxOut>): (s: seq<nat>)
    ensures |s| == |inputs| && forall i :: 0 <= i < |s| ==> s[i] == inputs[i].globalIndex
  {
    seq(|inputs|, i requires 0 <= i < |inputs| => inputs[i].globalIndex)
  }

  /** Replace each input's output, which came from fog without its hint, by the ledger's own. */
  method GetProofs(inputs: seq<OwnedTxOut>, server: seq<nat> -> Option<seq<OutputResult>>)
    returns (r: Result<seq<(OwnedTxOut, Proof)>, WalletError>)
    ensures var results := server(IndicesOf(inputs));
            && (r.Ok? <==> results.Some? && Answered(IndicesOf(inputs), results.value))
            && (r.Err? ==> FailsWith(IndicesOf(inputs), results, r.error))
            && (r.Ok? ==> |r.value| == |results.value| && forall i :: 0 <= i < |r.value| ==>
                  && r.value[i].0.globalIndex == inputs[i].globalIndex == results.value[i].index
                  && r.value[i].0.value == inputs[i].value
                  && (r.value[i].0.txo, r.value[i].1) == results.value[i].status.member)
  {
    var found := MembersIn(IndicesOf(inputs), server(IndicesOf(inputs)));
    if found.Err? {
      return Err(found.error);
    }
    var members := found.value;
    r := Ok(seq(|members|, i requires 0 <= i < |members| && |members| <= |inputs| =>
                  (inputs[i].(txo := members[i].0), members[i].1)));
  }

  function Flatten(rings: seq<seq<Member>>): seq<Member> {
    if rings == [] then [] else Flatten(rings[..|rings| - 1]) + rings[|rings| - 1]
  }

  /** Rings of `size` members each, which are the members of `outputs` in order up to a remainder too
      small for another ring. */
  ghost predicate CutInto(outputs: seq<Member>, size: nat, rings: seq<seq<Member>>, remainder: seq<Member>) {
    && Flatten(rings) + remainder == outputs
    && (forall k :: 0 <= k < |rings| ==> |rings[k]| == size)
    && (size > 0 ==> |remainder| < size)
  }

  /** Draw below `limit` until enough different indices are there. None if the draws given do not suffice. */
  method Sample(limit: nat, requested: nat, draws: seq<nat>) returns (sampled: Option<set<nat>>)
    requires forall i :: 0 <= i < |draws| ==> draws[i] < limit
    ensures sampled.None? <==> |Drawn(draws)| < requested
    ensures sampled.Some? ==> |sampled.value| == requested && forall x :: x in sampled.value ==> x < limit && x in draws
  {
    var indices: set<nat>, n := {}, 0;
    while |indices| < requested
      invariant n <= |draws| && |indices| <= requested && indices == Drawn(draws[..n])
      decreases |draws| - n
    {
      if n == |draws| {
        assert draws[..n] == draws;
        return None;
      }
      assert draws[..n + 1] == draws[..n] + [draws[n]];
      indices := indices + {draws[n]};
      n := n + 1;
    }
    DrawnGrows(draws, n);
    sampled := Some(indices);
  }

  function Drawn(draws: seq<nat>): set<nat> {
    set x | x in draws
  }

  lemma DrawnGrows(draws: seq<nat>, n: nat)
    requires n <= |draws|
    ensures |Drawn(draws[..n])| <= |Drawn(draws)|
  {
    SmallerSet(Drawn(draws[..n]), Drawn(draws));
  }

  lemma {:induction false} SmallerSet(a: set<nat>, b: set<nat>)
    requires a <= b
    ensures |a| <= |b|
  {
    if a != {} {
      var x :| x in a;
      SmallerSet(a - {x}, b - {x});
    }
  }

  /** The set in some order. */
  method InSomeOrder(sampled: set<nat>) returns (indices: seq<nat>)
    ensures |indices| == |sampled| && (forall x :: x in indices <==> x in sampled)
    ensures forall i, j :: 0 <= i < j < |indices| ==> indices[i] != indices[j]
  {
    indices := [];
    var rest := sampled;
    while rest != {}
      invariant rest <= sampled && |indices| + |rest| == |sampled|
      invariant forall x :: x in indices <==> x in sampled && x !in rest
      invariant forall i, j :: 0 <= i < j < |indices| ==> indices[i] != indices[j]
      decreases |rest|
    {
      var x :| x in rest;
      indices, rest := indices + [x], rest - {x};
    }
  }

  /** Sample `numRings * size` different outputs and cut the answers for them into rings. */
  method GetRings(size: nat, numRings: nat, globalTxoCount: nat, draws: seq<nat>,
                  server: seq<nat> -> Option<seq<OutputResult>>)
    returns (r: Result<seq<seq<Member>>, WalletError>, ghost indices: seq<nat>, ghost remainder: seq<Member>)
    requires forall i :: 0 <= i < |draws| ==> draws[i] < globalTxoCount
    ensures r == Err(InsufficientTxOuts(globalTxoCount, numRings * size)) <==> globalTxoCount < numRings * size
    ensures r == Err(StillSampling) <==> |Drawn(draws)| < numRings * size <= globalTxoCount
    ensures numRings * size <= globalTxoCount && numRings * size <= |Drawn(draws)| ==>
              && |indices| == numRings * size && (forall x :: x in indices ==> x < globalTxoCount)
              && (forall i, j :: 0 <= i < j < |indices| ==> indices[i] != indices[j])
              && (r.Ok? <==> server(indices).Some? && Answered(indices, server(indices).value))
              && (r.Err? ==> FailsWith(indices, server(indices), r.error))
    ensures r.Ok? ==>
              && server(indices).Some? && Answered(indices, server(indices).value)
              && CutInto(MembersOf(server(indices).value), size, r.value, remainder)
              && (size == 0 ==> r.value == [])
              && (size > 0 && |server(indices).value| == |indices| ==> |r.value| == numRings && remainder == [])
  {
    indices, remainder := [], [];
    if globalTxoCount < numRings * size {
      return Err(InsufficientTxOuts(globalTxoCount, numRings * size)), [], [];
    }
    var sampled := Sample(globalTxoCount, numRings * size, draws);
    if sampled.None? {
      return Err(StillSampling), [], [];
    }
    var chosen := InSomeOrder(sampled.value);
    indices := chosen;
    var outputs := MembersIn(chosen, server(chosen));
    if outputs.Err? {
      return Err(outputs.error), indices, [];
    }
    assert outputs.value == MembersOf(server(chosen).value);
    var rings;
    rings, remainder := Cut(outputs.value, size);
    if size > 0 && |outputs.value| == |indices| {
      FlattenLength(rings, size);
      FullRings(|rings|, numRings, size, |remainder|);
    }
    r := Ok(rings);
  }

  /** Cut the outputs into rings of `size`; what is left at the end is dropped. */
  method Cut(outputs: seq<Member>, size: nat) returns (rings: seq<seq<Member>>, ghost remainder: seq<Member>)
    ensures CutInto(outputs, size, rings, remainder) && (size == 0 ==> rings == [])
  {
    rings := [];
    var ring: seq<Member> := [];
    for n := 0 to |outputs|
      invariant CutInto(outputs[..n], size, rings, ring)
      invariant size == 0 ==> rings == []
    {
      ghost var before := ring;
      assert outputs[..n + 1] == outputs[..n] + [outputs[n]];
      ring := ring + [outputs[n]];
      if |ring| == size {
        assert (rings + [ring])[..|rings|] == rings;
        assert Flatten(rings) + (before + [outputs[n]]) == (Flatten(rings) + before) + [outputs[n]];
        rings := rings + [ring];
        ring := [];
      }
    }
    assert outputs[..|outputs|] == outputs;
    remainder := ring;
  }

  function MembersOf(results: seq<OutputResult>): (s: seq<Member>)
    requires forall i :: 0 <= i < |results| ==> results[i].status.Exists?
    ensures |s| == |results| && forall i :: 0 <= i < |s| ==> s[i] == results[i].status.member
  {
    seq(|results|, i requires 0 <= i < |results| && results[i].status.Exists? => results[i].status.member)
  }

  lemma {:induction false} FlattenLength(rings: seq<seq<Member>>, size: nat)
    requires forall k :: 0 <= k < |rings| ==> |rings[k]| == size
    ensures |Flatten(rings)| == |rings| * size
  {
    if rings != [] {
      FlattenLength(rings[..|rings| - 1], size);
      assert |rings| * size == (|rings| - 1) * size + size;
    }
  }

  lemma FullRings(rings: nat, wanted: nat, size: nat, rest: nat)
    requires size > 0 && rest < size && rings * size + rest == wanted * size
    ensures rings == wanted && rest == 0
  {
    if rings < wanted {
      OneMoreRing(rings, wanted, size);
    } else if rings > wanted {
      OneMoreRing(wanted, rings, size);
    }
  }

  lemma OneMoreRing(a: nat, b: nat, size: nat)
    requires a < b
    ensures a * size + size <= b * size
  {
    assert (a + 1) * size == a * size + size;
  }

  /** Ring k is the k-th piece of the sampled outputs. */
  lemma {:induction false} RingIsPiece(outputs: seq<Member>, size: nat, rings: seq<seq<Member>>,
                                       remainder: seq<Member>, k: nat)
    requires CutInto(outputs, size, rings, remainder) && k < |rings|
    ensures 0 <= k * size && k * size + size <= |outputs| && rings[k] == outputs[k * size..k * size + size]
    decreases |rings|
  {
    var front, last := rings[..|rings| - 1], rings[|rings| - 1];
    FlattenLength(rings, size);
    FlattenLength(front, size);
    if k < |rings| - 1 {
      RingIsPiece(Flatten(front), size, front, [], k);
      assert outputs[..|Flatten(front)|] == Flatten(front);
      assert outputs[k * size..k * size + size] == Flatten(front)[k * size..k * size + size];
    } else {
      assert outputs == Flatten(front) + (last + remainder);
      assert k * size == |Flatten(front)|;
      assert outputs[k * size..] == last + remainder;
      assert outputs[k * size..k * size + size] == outputs[k * size..][..size];
    }
  }

  // ---- assembly ----------------------------------------------------------------------------------

  function TxosOf(ring: seq<Member>): (s: seq<TxOut>)
    ensures |s| == |ring| && forall i :: 0 <= i < |s| ==> s[i] == ring[i].0
  {
    seq(|ring|, i requires 0 <= i < |ring| => ring[i].0)
  }

  function ProofsOf(ring: seq<Member>): (s: seq<Proof>)
    ensures |s| == |ring| && forall i :: 0 <= i < |s| ==> s[i] == ring[i].1
  {
    seq(|ring|, i requires 0 <= i < |ring| => ring[i].1)
  }

  method Position(ring: seq<TxOut>, txo: TxOut) returns (at: Option<nat>)
    ensures at.None? <==> txo !in ring
    ensures at.Some? ==> at.value < |ring| && ring[at.value] == txo && txo !in ring[..at.value]
  {
    for i := 0 to |ring|
      invariant txo !in ring[..i]
    {
      if ring[i] == txo {
        return Some(i);
      }
    }
    assert ring[..|ring|] == ring;
    return None;
  }

  /** The credentials spend `input` from this ring: the real member is the input; the ring keeps its
      size (an empty one gets one member); proofs stay with the members they came with; and only the
      first member may be other than sampled, and that only when the sample missed the input. */
  ghost predicate SpendsFrom(ring: seq<Member>, input: Member, c: Credentials) {
    && |c.ring| == |c.proofs| == (if |ring| == 0 then 1 else |ring|)
    && c.realIndex < |c.ring|
    && c.ring[c.realIndex] == input.0
    && (forall j :: 0 <= j < |c.ring| && (j != c.realIndex || input.0 in TxosOf(ring)) ==>
          j < |ring| && (c.ring[j], c.proofs[j]) == ring[j])
    && input.0 !in c.ring[..c.realIndex]
    && (input.0 !in TxosOf(ring) ==> c.realIndex == 0 && c.proofs[0] == input.1)
  }

  method PlaceInput(ring: seq<Member>, input: Member) returns (c: Credentials)
    ensures SpendsFrom(ring, input, c)
  {
    var txos, proofs := TxosOf(ring), ProofsOf(ring);
    var at := Position(txos, input.0);
    if at.Some? {
      return Credentials(txos, proofs, at.value);
    }
    if |txos| == 0 {
      txos, proofs := txos + [input.0], proofs + [input.1];
    } else {
      txos, proofs := txos[0 := input.0], proofs[0 := input.1];
    }
    c := Credentials(txos, proofs, 0);
  }

  /** If the sampled members are distinct, the input is in its ring exactly once and all members stay distinct. */
  lemma RingStaysDistinct(ring: seq<Member>, input: Member, c: Credentials)
    requires SpendsFrom(ring, input, c)
    requires forall i, j :: 0 <= i < j < |ring| ==> ring[i].0 != ring[j].0
    ensures forall i, j :: 0 <= i < j < |c.ring| ==> c.ring[i] != c.ring[j]
  {
    forall i, j | 0 <= i < j < |c.ring|
      ensures c.ring[i] != c.ring[j]
    {
      if input.0 !in TxosOf(ring) && i == 0 {
        assert c.ring[j] == TxosOf(ring)[j];
      }
    }
  }

  /** Every proof in the result proves its own member, if the sampled ones and the input's did. */
  lemma ProofsStayPaired(ring: seq<Member>, input: Member, c: Credentials, proves: Member -> bool)
    requires SpendsFrom(ring, input, c) && proves(input)
    requires forall i :: 0 <= i < |ring| ==> proves(ring[i])
    ensures forall j :: 0 <= j < |c.ring| ==> proves((c.ring[j], c.proofs[j]))
  {
    forall j | 0 <= j < |c.ring|
      ensures proves((c.ring[j], c.proofs[j]))
    {
      if j != c.realIndex || input.0 in TxosOf(ring) {
        assert (c.ring[j], c.proofs[j]) == ring[j];
      } else {
        assert (c.ring[j], c.proofs[j]) == input;
      }
    }
  }

  function TotalValue(inputs: seq<(OwnedTxOut, Proof)>): nat {
    if inputs == [] then 0 else TotalValue(inputs[..|inputs| - 1]) + inputs[|inputs| - 1].0.value
  }

  function TotalPaid(outputs: seq<Payment>): nat {
    if outputs == [] then 0 else TotalPaid(outputs[..|outputs| - 1]) + outputs[|outputs| - 1].value
  }

  /** The running u64 sum is the true sum modulo 2^64. */
  method SumInputs(inputs: seq<(OwnedTxOut, Proof)>) returns (sum: nat)
    ensures sum == TotalValue(inputs) % TWO64
  {
    sum := 0;
    for n := 0 to |inputs|
      invariant sum == TotalValue(inputs[..n]) % TWO64
    {
      assert inputs[..n + 1][..n] == inputs[..n];
      WrappedStep(TotalValue(inputs[..n]), inputs[n].0.value);
      sum := (sum + inputs[n].0.value) % TWO64;
    }
    assert inputs[..|inputs|] == inputs;
  }

  /** Input k was placed in the ring popped for it. */
  ghost predicate Placed(inputs: seq<(OwnedTxOut, Proof)>, rings: seq<seq<Member>>, placed: seq<Credentials>) {
    && |placed| <= |inputs| == |rings|
    && forall k :: 0 <= k < |placed| ==>
         SpendsFrom(rings[|rings| - 1 - k], (inputs[k].0.txo, inputs[k].1), placed[k])
  }

  predicate Affordable(inputs: seq<(OwnedTxOut, Proof)>, amount: nat, fee: nat) {
    (amount + fee) % TWO64 <= TotalValue(inputs) % TWO64
  }

  function Change(inputs: seq<(OwnedTxOut, Proof)>, amount: nat, fee: nat): nat
    requires Affordable(inputs, amount, fee)
  {
    TotalValue(inputs) % TWO64 - (amount + fee) % TWO64
  }

  /** Put each input into the ring popped for it. */
  method PlaceInputs(lib: Library, inputs: seq<(OwnedTxOut, Proof)>, rings: seq<seq<Member>>)
    returns (r: Result<seq<Credentials>, WalletError>)
    requires |rings| == |inputs|
    ensures r.Ok? ==>
              && |r.value| == |inputs| && Placed(inputs, rings, r.value)
              && forall k :: 0 <= k < |inputs| ==> lib.keyOk(inputs[k].0.txo) && lib.ringOk(r.value[k])
    ensures r.Err? ==>
              || (r.error == BadKey && exists k :: 0 <= k < |inputs| && !lib.keyOk(inputs[k].0.txo))
              || (r.error == BrokenRing && exists c :: !lib.ringOk(c))
  {
    var rest, placed: seq<Credentials> := rings, [];
    for k := 0 to |inputs|
      invariant |placed| == k && rest == rings[..|rings| - k]
      invariant Placed(inputs, rings, placed)
      invariant forall j :: 0 <= j < k ==> lib.keyOk(inputs[j].0.txo) && lib.ringOk(placed[j])
    {
      var ring := rest[|rest| - 1];
      rest := rest[..|rest| - 1];
      var c := PlaceInput(ring, (inputs[k].0.txo, inputs[k].1));
      if !lib.keyOk(inputs[k].0.txo) {
        return Err(BadKey);
      }
      if !lib.ringOk(c) {
        return Err(BrokenRing);
      }
      placed := placed + [c];
    }
    r := Ok(placed);
  }

  /** Spend `inputs`, each from the ring popped for it, pay `amount` to the target and the change, if
      there is any, back to ourselves. */
  method BuildTransaction(lib: Library, inputs: seq<(OwnedTxOut, Proof)>, rings: seq<seq<Member>>, amount: nat,
                          self: Address, target: Address, tombstone: nat, fee: nat)
    returns (r: Result<Tx, WalletError>)
    ensures r == Err(RingsForInput(|rings|, |inputs|)) <==> |rings| != |inputs|
    ensures r == Err(InsufficientFunds) <==> |rings| == |inputs| && !Affordable(inputs, amount, fee)
    ensures |rings| == |inputs| && Affordable(inputs, amount, fee) && Permissive(lib) ==> r.Ok?
    ensures r.Ok? ==>
              && Affordable(inputs, amount, fee)
              && |r.value.inputs| == |inputs| && Placed(inputs, rings, r.value.inputs)
              && r.value.outputs == [Payment(amount, target)] + ChangeOutput(Change(inputs, amount, fee), self)
              && r.value.fee == fee && r.value.tombstone == tombstone
    ensures r.Ok? ==>
              && |r.value.outputs| <= 2 && r.value.outputs[0].to == target && r.value.outputs[0].value == amount
              && (|r.value.outputs| == 2 ==> r.value.outputs[1].to == self && r.value.outputs[1].value > 0)
              && (forall k :: 0 <= k < |inputs| ==> lib.keyOk(inputs[k].0.txo) && lib.ringOk(r.value.inputs[k]))
              && (forall k :: 0 <= k < |r.value.outputs| ==> lib.outputOk(r.value.outputs[k])) && lib.buildOk(r.value)
    ensures r == Err(BadKey) ==> exists k :: 0 <= k < |inputs| && !lib.keyOk(inputs[k].0.txo)
    ensures r == Err(BrokenRing) ==> exists c :: !lib.ringOk(c)
    ensures r == Err(AddOutput) ==>
              !lib.outputOk(Payment(amount, target)) ||
              (Affordable(inputs, amount, fee) && !lib.outputOk(Payment(Change(inputs, amount, fee), self)))
    ensures r == Err(BuildFailed) ==> exists tx :: !lib.buildOk(tx)
    ensures r.Err? ==> r.error == RingsForInput(|rings|, |inputs|)
                       || r.error in {InsufficientFunds, BadKey, BrokenRing, AddOutput, BuildFailed}
  {
    if |rings| != |inputs| {
      return Err(RingsForInput(|rings|, |inputs|));
    }
    var sum := SumInputs(inputs);
    if (amount + fee) % TWO64 > sum {
      return Err(InsufficientFunds);
    }
    var change := sum - (amount + fee) % TWO64;
    var placed := PlaceInputs(lib, inputs, rings);
    if placed.Err? {
      return Err(placed.error);
    }
    if !lib.outputOk(Payment(amount, target)) {
      return Err(AddOutput);
    }
    var outputs := [Payment(amount, target)];
    if change > 0 {
      if !lib.outputOk(Payment(change, self)) {
        return Err(AddOutput);
      }
      outputs := outputs + [Payment(change, self)];
    }
    var tx := Tx(placed.value, outputs, fee, tombstone);
    if !lib.buildOk(tx) {
      return Err(BuildFailed);
    }
    r := Ok(tx);
  }

  function ChangeOutput(change: nat, self: Address): seq<Payment> {
    if change > 0 then [Payment(change, self)] else []
  }

  lemma PaidTotal(amount: nat, change: nat, self: Address, target: Address)
    ensures TotalPaid([Payment(amount, target)] + ChangeOutput(change, self)) == amount + change
  {
    var one := [Payment(amount, target)];
    assert one[..0] == [] && TotalPaid(one) == amount;
    if change > 0 {
      var two := one + [Payment(change, self)];
      assert two[..1] == one && one + ChangeOutput(change, self) == two;
    } else {
      assert one + [] == one;
    }
  }

  /** Value is conserved exactly when the two u64 sums wrapped equally often. */
  lemma ConservedIff(inputs: seq<(OwnedTxOut, Proof)>, amount: nat, fee: nat, self: Address, target: Address)
    requires Affordable(inputs, amount, fee)
    ensures var paid := TotalPaid([Payment(amount, target)] + ChangeOutput(Change(inputs, amount, fee), self));
            TotalValue(inputs) == paid + fee <==> TotalValue(inputs) / TWO64 == (amount + fee) / TWO64
  {
    PaidTotal(amount, Change(inputs, amount, fee), self, target);
  }

  /** In particular whenever the inputs' total fits in 64 bits and what is spent does too; then the
      change is what is left and running out of funds means just that. */
  lemma ConservedWithoutOverflow(inputs: seq<(OwnedTxOut, Proof)>, amount: nat, fee: nat, self: Address,
                                 target: Address)
    requires TotalValue(inputs) < TWO64 && amount + fee < TWO64
    ensures Affordable(inputs, amount, fee) <==> amount + fee <= TotalValue(inputs)
    ensures amount + fee <= TotalValue(inputs) ==>
              && TotalPaid([Payment(amount, target)] + ChangeOutput(Change(inputs, amount, fee), self)) + fee
                 == TotalValue(inputs)
              && Change(inputs, amount, fee) == TotalValue(inputs) - amount - fee
  {
    if amount + fee <= TotalValue(inputs) {
      PaidTotal(amount, Change(inputs, amount, fee), self, target);
    }
  }

  /** Otherwise value can vanish: two inputs of 2^63 sum to 0, so paying 0 leaves no change at all. */
  lemma OverflowLosesValue(a: TxOut, b: TxOut, self: Address, target: Address)
    ensures var inputs: seq<(OwnedTxOut, Proof)> :=
              [(OwnedTxOut(0, a, 0x8000_0000_0000_0000), 0), (OwnedTxOut(1, b, 0x8000_0000_0000_0000), 0)];
            && Affordable(inputs, 0, 0)
            && TotalValue(inputs) == 0x1_0000_0000_0000_0000
            && TotalPaid([Payment(0, target)] + ChangeOutput(Change(inputs, 0, 0), self)) == 0
  {
    var inputs: seq<(OwnedTxOut, Proof)> :=
      [(OwnedTxOut(0, a, 0x8000_0000_0000_0000), 0), (OwnedTxOut(1, b, 0x8000_0000_0000_0000), 0)];
    assert inputs[..1] == [inputs[0]] && inputs[..1][..0] == [];
    assert TotalValue(inputs[..1]) == 0x8000_0000_0000_0000;
    PaidTotal(0, Change(inputs, 0, 0), self, target);
  }
}
