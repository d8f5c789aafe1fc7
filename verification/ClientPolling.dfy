/**
 * How a client turns its rngs into transaction outputs (fog/view/protocol/src/polling.rs and
 * user_rng_set.rs): ask the view server for the next few outputs of every live rng, advance each
 * rng past the answers, double the batch, and stop asking an rng once it falls short.
 *
 * An rng is given by its egress key and the number of outputs already consumed. Each request may be answered by
 * another view server, one that has loaded more or less than the last, and any request may fail.
 */
module ClientPolling {
  import opened Prelude
  import opened FogView
  import opened RecoveryTables
  import opened IngestEnclave
  import opened EventPaging

  type Store = map<SearchKey, Payload>

  /** The server holds exactly the first `total` outputs of this rng: the no-gap guarantee. */
  ghost predicate HoldsPrefix(server: Store, secret: Secret, total: nat) {
    total < TWO64 && forall c: nat :: Prf(secret, c) in server <==> c < total
  }

  ghost predicate RngsOk(server: Store, view: ViewKey, egress: seq<EgressKey>, totals: seq<nat>) {
    && |totals| == |egress|
    && forall k :: 0 <= k < |egress| ==> HoldsPrefix(server, SharedSecret(egress[k], view), totals[k])
  }

  /** A client keeps one rng per egress key. */
  ghost predicate Distinct(egress: seq<EgressKey>) {
    forall i, j :: 0 <= i < j < |egress| ==> egress[i] != egress[j]
  }

  /** Everything in `a` is in `b`. */
  ghost predicate Within(a: Store, b: Store) {
    forall key :: key in a ==> key in b && b[key] == a[key]
  }

  // ---- one request -----------------------------------------------------------------------------------------

  function Wrapped(n: nat): nat {
    n % TWO64
  }

  /** The counters asked for in a batch of m queries from position idx. */
  predicate InBatch(idx: nat, m: nat, c: nat) {
    exists n :: idx <= n < idx + m && Wrapped(n) == c
  }

  /** This search key is in the batch of some live rng. */
  predicate Asked(view: ViewKey, egress: seq<EgressKey>, at: seq<nat>, dead: seq<bool>, m: nat, key: SearchKey)
    requires |at| == |dead| == |egress|
  {
    exists k :: 0 <= k < |egress| && !dead[k] && key.secret == SharedSecret(egress[k], view)
                && InBatch(at[k], m, key.counter)
  }

  /** The server's answers to one request. */
  function Answers(server: Store, view: ViewKey, egress: seq<EgressKey>, at: seq<nat>, dead: seq<bool>, m: nat): Store
    requires |at| == |dead| == |egress|
  {
    map key | key in server && Asked(view, egress, at, dead, m, key) :: server[key]
  }

  lemma BatchHolds(idx: nat, m: nat, i: nat)
    requires idx <= i < TWO64 && i <= idx + m
    ensures InBatch(idx, m, i) <==> i < idx + m
  {
    assert Wrapped(i) == i;
    if i == idx + m {
      forall n | idx <= n < idx + m
        ensures Wrapped(n) != i
      {
        assert Wrapped(n) == n;
      }
    }
  }

  lemma BatchIs(idx: nat, m: nat, c: nat)
    requires idx + m <= TWO64
    ensures InBatch(idx, m, c) ==> idx <= c < idx + m
  {
    if InBatch(idx, m, c) {
      var n :| idx <= n < idx + m && Wrapped(n) == c;
      assert Wrapped(n) == n;
    }
  }

  /** Of this rng the answers hold the counters in the batch, except those already taken. */
  ghost predicate HoldsBatch(answers: Store, secret: Secret, live: bool, idx: nat, m: nat, total: nat, taken: nat) {
    forall c: nat :: Prf(secret, c) in answers <==> live && InBatch(idx, m, c) && c < total && !(idx <= c < taken)
  }

  /** What has been recovered from an rng by moving it from position a to position b. */
  ghost predicate Recovers(server: Store, secret: Secret, a: nat, b: nat, hits: seq<Payload>) {
    && a <= b && |hits| == b - a
    && forall i :: a <= i < b ==> Output(secret, i) in server && hits[i - a] == server[Output(secret, i)]
  }

  /** Where a live rng at position idx gets with m queries: on, but not past the end of what the server holds; a
      server that holds less than the rng has consumed does not move it. */
  function Reach(idx: nat, m: nat, total: nat): nat {
    if idx <= total then Min(idx + m, total) else idx
  }

  /** Match one rng against the answers, taking out and advancing past every hit. */
  method MatchRng(answers: Store, secret: Secret, live: bool, idx: nat, m: nat, ghost server: Store, ghost total: nat)
    returns (idx': nat, hits: seq<Payload>, rest: Store)
    requires HoldsPrefix(server, secret, total) && idx < TWO64
    requires Within(answers, server) && HoldsBatch(answers, secret, live, idx, m, total, idx)
    ensures idx' == (if live then Reach(idx, m, total) else idx)
    ensures Recovers(server, secret, idx, idx', hits)
    ensures Within(rest, server) && HoldsBatch(rest, secret, live, idx, m, total, idx')
    ensures forall key: SearchKey :: key.secret != secret ==> (key in rest <==> key in answers)
  {
    idx', hits, rest := idx, [], answers;
    while Output(secret, idx') in rest
      invariant idx <= idx' <= Max(idx, total) && (if live then idx' <= idx + m else idx' == idx)
      invariant Recovers(server, secret, idx, idx', hits)
      invariant Within(rest, server) && HoldsBatch(rest, secret, live, idx, m, total, idx')
      invariant forall key: SearchKey :: key.secret != secret ==> (key in rest <==> key in answers)
      decreases Max(idx, total) - idx'
    {
      BatchHolds(idx, m, idx');
      var key := Output(secret, idx');
      hits := hits + [rest[key]];
      rest := rest - {key};
      idx' := idx' + 1;
    }
    if live {
      BatchHolds(idx, m, idx');
    }
  }

  /** One rng in a round of m queries: it gets as far as it can, and is dead if it fell short. */
  ghost predicate Moves(total: nat, at: nat, at': nat, dead: bool, dead': bool, m: nat) {
    at' == (if dead then at else Reach(at, m, total)) && dead' == (at + m > at')
  }

  /** One request and its answer: every live rng advances by its batch or to the end of its stream, and is
      dead if it fell short. No answer is left over unless a batch ran past the end of the counter. */
  method PollRound(server: Store, view: ViewKey, egress: seq<EgressKey>, ghost totals: seq<nat>, at: seq<nat>,
                   dead: seq<bool>, m: nat)
    returns (at': seq<nat>, dead': seq<bool>, hits: seq<seq<Payload>>, failures: Store)
    requires Distinct(egress) && RngsOk(server, view, egress, totals) && |at| == |dead| == |egress|
    requires forall k :: 0 <= k < |egress| ==> at[k] < TWO64
    ensures |at'| == |dead'| == |hits| == |egress|
    ensures forall k :: 0 <= k < |egress| ==>
              && Moves(totals[k], at[k], at'[k], dead[k], dead'[k], m)
              && Recovers(server, SharedSecret(egress[k], view), at[k], at'[k], hits[k])
    ensures (forall k :: 0 <= k < |egress| ==> at[k] + m <= TWO64) ==> failures == map[]
  {
    var answers := Answers(server, view, egress, at, dead, m);
    AnswersHoldBatches(server, view, egress, totals, at, dead, m);
    at', dead', hits := [], [], [];
    for k := 0 to |egress|
      invariant |at'| == |dead'| == |hits| == k
      invariant forall i :: 0 <= i < k ==>
                  && Moves(totals[i], at[i], at'[i], dead[i], dead'[i], m)
                  && Recovers(server, SharedSecret(egress[i], view), at[i], at'[i], hits[i])
      invariant Within(answers, server) && OwnAnswers(answers, view, egress)
      invariant forall i :: 0 <= i < |egress| ==>
                  HoldsBatch(answers, SharedSecret(egress[i], view), !dead[i], at[i], m, totals[i],
                             if i < k then at'[i] else at[i])
    {
      var next, found;
      ghost var before := answers;
      next, found, answers := MatchRng(answers, SharedSecret(egress[k], view), !dead[k], at[k], m, server, totals[k]);
      forall i | 0 <= i < |egress| && i != k
        ensures HoldsBatch(answers, SharedSecret(egress[i], view), !dead[i], at[i], m, totals[i],
                           if i < k then at'[i] else at[i])
      {
        assert egress[i] != egress[k];
      }
      at', dead', hits := at' + [next], dead' + [at[k] + m > next], hits + [found];
    }
    failures := answers;
    if forall k :: 0 <= k < |egress| ==> at[k] + m <= TWO64 {
      NothingLeft(failures, view, egress, totals, at, at', dead, m);
    }
  }

  /** Every answer belongs to one of the rngs. */
  ghost predicate OwnAnswers(answers: Store, view: ViewKey, egress: seq<EgressKey>) {
    forall key :: key in answers ==> exists k :: 0 <= k < |egress| && key.secret == SharedSecret(egress[k], view)
  }

  lemma AnswersHoldBatches(server: Store, view: ViewKey, egress: seq<EgressKey>, totals: seq<nat>, at: seq<nat>,
                           dead: seq<bool>, m: nat)
    requires Distinct(egress) && RngsOk(server, view, egress, totals) && |at| == |dead| == |egress|
    ensures var answers := Answers(server, view, egress, at, dead, m);
            && Within(answers, server) && OwnAnswers(answers, view, egress)
            && forall i :: 0 <= i < |egress| ==>
                 HoldsBatch(answers, SharedSecret(egress[i], view), !dead[i], at[i], m, totals[i], at[i])
  {
    var answers := Answers(server, view, egress, at, dead, m);
    forall i | 0 <= i < |egress|
      ensures HoldsBatch(answers, SharedSecret(egress[i], view), !dead[i], at[i], m, totals[i], at[i])
    {
      assert HoldsPrefix(server, SharedSecret(egress[i], view), totals[i]);
    }
  }

  lemma NothingLeft(rest: Store, view: ViewKey, egress: seq<EgressKey>, totals: seq<nat>, at: seq<nat>, at': seq<nat>,
                    dead: seq<bool>, m: nat)
    requires |totals| == |at| == |at'| == |dead| == |egress| && OwnAnswers(rest, view, egress)
    requires forall k :: 0 <= k < |egress| ==> at[k] + m <= TWO64 && (!dead[k] ==> at'[k] == Reach(at[k], m, totals[k]))
    requires forall k :: 0 <= k < |egress| ==>
               HoldsBatch(rest, SharedSecret(egress[k], view), !dead[k], at[k], m, totals[k], at'[k])
    ensures rest == map[]
  {
    forall key
      ensures key !in rest
    {
      if key in rest {
        var k :| 0 <= k < |egress| && key.secret == SharedSecret(egress[k], view);
        assert key == Prf(SharedSecret(egress[k], view), key.counter);
        BatchIs(at[k], m, key.counter);
      }
    }
  }

  // ---- the polling loop -----------------------------------------------------------------------------------------

  /** What one request met: the view server's contents and the block count it told. */
  datatype Answer = Answer(server: Store, count: nat)

  /** The answers come from view servers that hold prefixes of the rngs, `totals[i]` at request i, and all that
      any of them holds is in `final`. */
  ghost predicate Consistent(answers: seq<Option<Answer>>, view: ViewKey, egress: seq<EgressKey>, totals: seq<seq<nat>>,
                             final: Store)
  {
    && |totals| == |answers|
    && (forall i :: 0 <= i < |totals| ==> |totals[i]| == |egress|)
    && (forall i :: 0 <= i < |answers| && answers[i].Some? ==>
          RngsOk(answers[i].value.server, view, egress, totals[i]) && Within(answers[i].value.server, final))
  }

  /** What the walk so far has found of every rng. */
  ghost predicate Walked(final: Store, view: ViewKey, egress: seq<EgressKey>, start: seq<nat>, at: seq<nat>,
                         found: seq<seq<Payload>>)
  {
    && |start| == |at| == |found| == |egress|
    && forall k :: 0 <= k < |egress| ==> Recovers(final, SharedSecret(egress[k], view), start[k], at[k], found[k])
  }

  function Zip(a: seq<seq<Payload>>, b: seq<seq<Payload>>): (c: seq<seq<Payload>>)
    requires |a| == |b|
    ensures |c| == |a| && forall k :: 0 <= k < |a| ==> c[k] == a[k] + b[k]
  {
    seq(|a|, k requires 0 <= k < |a| => a[k] + b[k])
  }

  lemma ZipNothing(a: seq<seq<Payload>>)
    ensures Zip(a, seq(|a|, _ => [])) == a
  {
    forall k | 0 <= k < |a|
      ensures a[k] + [] == a[k]
    {
    }
  }

  lemma WalksOn(server: Store, final: Store, view: ViewKey, egress: seq<EgressKey>, start: seq<nat>, at: seq<nat>,
                at': seq<nat>, found: seq<seq<Payload>>, hits: seq<seq<Payload>>)
    requires Within(server, final) && Walked(final, view, egress, start, at, found)
    requires Walked(server, view, egress, at, at', hits)
    ensures Walked(final, view, egress, start, at', Zip(found, hits))
  {
    forall k | 0 <= k < |egress|
      ensures Recovers(final, SharedSecret(egress[k], view), start[k], at'[k], found[k] + hits[k])
    {
      RecoversMore(server, final, SharedSecret(egress[k], view), start[k], at[k], at'[k], found[k], hits[k]);
    }
  }

  lemma RecoversMore(server: Store, final: Store, secret: Secret, a: nat, b: nat, c: nat, x: seq<Payload>,
                     y: seq<Payload>)
    requires Within(server, final) && Recovers(final, secret, a, b, x) && Recovers(server, secret, b, c, y)
    ensures Recovers(final, secret, a, c, x + y)
  {
  }

  /** One of the first n requests was answered by a server that holds no more of rng k than has been consumed. */
  ghost predicate Exhausted(answers: seq<Option<Answer>>, totals: seq<seq<nat>>, n: nat, at: seq<nat>, k: nat)
    requires |totals| == |answers|
  {
    k < |at| && exists i :: 0 <= i < n && i < |totals| && k < |totals[i]| && answers[i].Some? && totals[i][k] <= at[k]
  }

  /** After n requests, all of them answered: a dead rng is exhausted. */
  ghost predicate Reached(answers: seq<Option<Answer>>, totals: seq<seq<nat>>, n: nat, at: seq<nat>, dead: seq<bool>) {
    && |totals| == |answers| && n <= |answers| && |at| == |dead|
    && (forall i :: 0 <= i < n ==> answers[i].Some?)
    && (forall k :: 0 <= k < |at| ==> at[k] < TWO64 && (dead[k] ==> Exhausted(answers, totals, n, at, k)))
  }

  lemma ReachesOn(answers: seq<Option<Answer>>, view: ViewKey, egress: seq<EgressKey>, totals: seq<seq<nat>>,
                  final: Store, n: nat, at: seq<nat>, at': seq<nat>, dead: seq<bool>, dead': seq<bool>, m: nat)
    requires Consistent(answers, view, egress, totals, final) && n < |answers| && answers[n].Some?
    requires Reached(answers, totals, n, at, dead) && |at| == |at'| == |dead'| == |egress|
    requires forall k :: 0 <= k < |at| ==> Moves(totals[n][k], at[k], at'[k], dead[k], dead'[k], m)
    ensures Reached(answers, totals, n + 1, at', dead')
  {
    forall k | 0 <= k < |at|
      ensures at'[k] < TWO64 && (dead'[k] ==> Exhausted(answers, totals, n + 1, at', k))
    {
      assert Moves(totals[n][k], at[k], at'[k], dead[k], dead'[k], m);
      assert HoldsPrefix(answers[n].value.server, SharedSecret(egress[k], view), totals[n][k]);
      if dead[k] {
        assert Exhausted(answers, totals, n, at, k);
      }
    }
  }

  /** No request fails and the server does not change. */
  ghost predicate Steady(answers: seq<Option<Answer>>, totals: seq<seq<nat>>) {
    && |totals| == |answers| > 0
    && forall i :: 0 <= i < |answers| ==> answers[i].Some? && totals[i] == totals[0]
  }

  /** How many outputs of an rng request number i asks for. */
  function Batch(i: nat): nat {
    if i == 0 then 2 else Min(2 * Batch(i - 1), 1000)
  }

  /** 2, 4, 8, ... 512, and then 1000 each time. */
  lemma {:induction false} BatchesDouble(i: nat)
    ensures Batch(0) == 2 && (i < 8 ==> Batch(i + 1) == 2 * Batch(i) <= 512) && (i >= 9 ==> Batch(i) == 1000)
  {
    if i > 9 {
      BatchesDouble(i - 1);
    } else {
      assert Batch(3) == 16 && Batch(6) == 128 && Batch(8) == 512;
    }
  }

  /** How many outputs of an rng that stays alive the first n requests ask for. */
  function AskedBy(n: nat): nat {
    if n == 0 then 0 else AskedBy(n - 1) + Batch(n - 1)
  }

  /** n requests are enough for each rng to come to the end of what the server holds of it. */
  ghost predicate Enough(totals: seq<nat>, start: seq<nat>, n: nat)
    requires |totals| == |start|
  {
    n > 0 && forall k :: 0 <= k < |start| ==> totals[k] < start[k] + AskedBy(n)
  }

  /** On a steady server, after requests that asked `spent` outputs of every live rng. */
  ghost predicate Standing(totals: seq<nat>, start: seq<nat>, at: seq<nat>, dead: seq<bool>, spent: nat) {
    && |totals| == |start| == |at| == |dead|
    && (forall k :: 0 <= k < |at| ==>
          if dead[k] then at[k] == Max(start[k], totals[k])
          else at[k] == start[k] + spent && (spent > 0 ==> at[k] <= totals[k]))
  }

  lemma StandsOn(totals: seq<nat>, start: seq<nat>, at: seq<nat>, at': seq<nat>, dead: seq<bool>, dead': seq<bool>,
                 spent: nat, m: nat)
    requires Standing(totals, start, at, dead, spent) && |at'| == |dead'| == |at| && m > 0
    requires forall k :: 0 <= k < |at| ==> Moves(totals[k], at[k], at'[k], dead[k], dead'[k], m)
    ensures Standing(totals, start, at', dead', spent + m)
  {
  }

  /** The smallest of `told` and the counts that came with the first n answers. */
  function LeastCount(told: nat, answers: seq<Option<Answer>>, n: nat): nat
    requires n <= |answers|
  {
    if n == 0 then told
    else
      var before := LeastCount(told, answers, n - 1);
      if answers[n - 1].Some? && answers[n - 1].value.count < before then answers[n - 1].value.count else before
  }

  lemma {:induction false} LeastCountBelow(told: nat, answers: seq<Option<Answer>>, n: nat)
    requires n <= |answers|
    ensures LeastCount(told, answers, n) <= told
    ensures forall i :: 0 <= i < n && answers[i].Some? ==> LeastCount(told, answers, n) <= answers[i].value.count
  {
    if n > 0 {
      LeastCountBelow(told, answers, n - 1);
    }
  }

  /** It is one of the counts told. */
  lemma {:induction false} LeastCountIsTold(told: nat, answers: seq<Option<Answer>>, n: nat)
    requires n <= |answers|
    ensures LeastCount(told, answers, n) == told ||
            exists i :: 0 <= i < n && answers[i].Some? && answers[i].value.count == LeastCount(told, answers, n)
  {
    if n > 0 {
      LeastCountIsTold(told, answers, n - 1);
    }
  }

  /** The search loop: batches of 2, 4, 8, ... up to 1000 until every rng is dead or a request fails. What is
      found is, of each rng, the consecutive outputs from where it stood; when the loop comes to its end, each
      rng has met a server that holds no more of it. On servers that all hold the same the loop comes to its
      end as soon as the batches, doubled each time, exceed what is left of every stream, with every rng at the end
      of its stream. */
  method Search(answers: seq<Option<Answer>>, view: ViewKey, egress: seq<EgressKey>, start: seq<nat>, told: nat,
                ghost totals: seq<seq<nat>>, ghost final: Store)
    returns (done: bool, at: seq<nat>, found: seq<seq<Payload>>, count: nat, ghost rounds: nat)
    requires Distinct(egress) && |start| == |egress| && Consistent(answers, view, egress, totals, final)
    requires forall k :: 0 <= k < |egress| ==> start[k] < TWO64
    ensures Walked(final, view, egress, start, at, found) && forall k :: 0 <= k < |egress| ==> at[k] < TWO64
    ensures rounds <= |answers| && count == LeastCount(told, answers, rounds)
    ensures forall i :: 0 <= i < rounds ==> answers[i].Some?
    ensures done ==> forall k :: 0 <= k < |egress| ==> Exhausted(answers, totals, rounds, at, k)
    ensures !done ==> rounds == |answers| || answers[rounds].None?
    ensures Steady(answers, totals) && Enough(totals[0], start, |answers|) ==>
              done && forall k :: 0 <= k < |egress| ==> at[k] == Max(start[k], totals[0][k])
  {
    at, found, count := start, seq(|egress|, _ => []), told;
    var dead := seq(|egress|, _ => false);
    var m, n := 2, 0;
    while false in dead
      invariant 2 <= m <= 1000 && m == Batch(n) && n <= |answers| && |dead| == |egress|
      invariant count == LeastCount(told, answers, n)
      invariant Walked(final, view, egress, start, at, found) && Reached(answers, totals, n, at, dead)
      invariant Steady(answers, totals) ==> Standing(totals[0], start, at, dead, AskedBy(n))
      decreases |answers| - n
    {
      if n == |answers| || answers[n].None? {
        done, rounds := false, n;
        return;
      }
      var server := answers[n].value.server;
      var at', dead', hits, _ := PollRound(server, view, egress, totals[n], at, dead, m);
      WalksOn(server, final, view, egress, start, at, at', found, hits);
      ReachesOn(answers, view, egress, totals, final, n, at, at', dead, dead', m);
      if Steady(answers, totals) {
        StandsOn(totals[0], start, at, at', dead, dead', AskedBy(n), m);
      }
      found, at, dead := Zip(found, hits), at', dead';
      count := if answers[n].value.count < count then answers[n].value.count else count;
      m := if 2 * m >= 1000 then 1000 else 2 * m;
      n := n + 1;
    }
    assert forall k :: 0 <= k < |egress| ==> dead[k];
    done, rounds := true, n;
  }

  // ---- the user --------------------------------------------------------------------------------------------------

  /** What a user keeps from poll to poll: the rngs they were told about, how far each has been consumed and what
      was found of it, where they stand in the event table, and the block count. */
  datatype User = User(egress: seq<EgressKey>, at: seq<nat>, found: seq<seq<Payload>>, cursor: int, count: nat)

  const NEW_USER := User([], [], [], 0, 0)

  ghost predicate UserShape(u: User) {
    && Distinct(u.egress) && |u.at| == |u.found| == |u.egress|
    && forall k :: 0 <= k < |u.at| ==> u.at[k] < TWO64
  }

  /** What was found of each rng are its first outputs. */
  ghost predicate UserOk(final: Store, view: ViewKey, u: User) {
    UserShape(u) && Walked(final, view, u.egress, seq(|u.egress|, _ => 0), u.at, u.found)
  }

  /** An rng already known is left as it is. */
  function Know(u: User, e: EgressKey): User {
    if e in u.egress then u else u.(egress := u.egress + [e], at := u.at + [0], found := u.found + [[]])
  }

  /** The user after taking in the rng records of a page of events. */
  function Learned(u: User, page: seq<Keyed>): User {
    if |page| == 0 then u
    else
      var before, event := Learned(u, page[..|page| - 1]), page[|page| - 1].event;
      if event.NewRngRecord? then Know(before, event.egress) else before
  }

  /** Nothing is forgotten. */
  ghost predicate Keeps(u: User, v: User) {
    && u.egress <= v.egress && |u.found| == |u.egress| && |v.found| == |v.egress|
    && forall k :: 0 <= k < |u.egress| ==> u.found[k] <= v.found[k]
  }

  lemma {:induction false} LearnedKeeps(final: Store, view: ViewKey, u: User, page: seq<Keyed>)
    requires UserShape(u)
    ensures UserShape(Learned(u, page)) && Keeps(u, Learned(u, page))
    ensures Learned(u, page).count == u.count && Learned(u, page).cursor == u.cursor
    ensures UserOk(final, view, u) ==> UserOk(final, view, Learned(u, page))
    ensures forall e :: e in Learned(u, page).egress <==> e in u.egress || e in EgressIn(page)
  {
    if |page| > 0 {
      var front := page[..|page| - 1];
      LearnedKeeps(final, view, u, front);
      assert page == front + [page[|page| - 1]];
    }
  }

  method LearnRngs(u: User, page: seq<Keyed>) returns (v: User)
    ensures v == Learned(u, page)
  {
    v := u;
    for n := 0 to |page|
      invariant v == Learned(u, page[..n])
    {
      assert page[..n + 1][..n] == page[..n];
      if page[n].event.NewRngRecord? && page[n].event.egress !in v.egress {
        v := v.(egress := v.egress + [page[n].event.egress], at := v.at + [0], found := v.found + [[]]);
      }
    }
    assert page[..|page|] == page;
  }

  /** What the first request of a poll brings. */
  datatype First = First(page: seq<Keyed>, count: nat)

  /** How a poll went: the answers, whether the search came to its end, after how many requests, and the hits. */
  datatype PollRecord = PollRecord(
    first: Option<First>, answers: seq<Option<Answer>>, done: bool, rounds: nat, hits: seq<seq<Payload>>)

  /** One poll takes the user from u to u'. The first request tells about rngs and a block count; if the count is
      not new, nothing is searched. The user's count moves to the smallest count told, never back, and only if
      the search came to its end. */
  ghost predicate Polls(final: Store, view: ViewKey, totals: seq<seq<nat>>, u: User, poll: PollRecord, u': User) {
    match poll.first
    case None => !poll.done && u' == u
    case Some(first) =>
      var v := Learned(u, first.page);
      && |totals| == |poll.answers| && poll.rounds <= |poll.answers|
      && (forall i :: 0 <= i < poll.rounds ==> poll.answers[i].Some?)
      && u'.egress == v.egress && u'.cursor == CursorAfter(u.cursor, first.page)
      && (forall k :: 0 <= k < |u'.at| ==> u'.at[k] < TWO64)
      && Walked(final, view, v.egress, v.at, u'.at, poll.hits) && |v.found| == |v.egress|
      && u'.found == Zip(v.found, poll.hits)
      && (poll.done ==> u.count < first.count
                        && forall k :: 0 <= k < |u'.at| ==> Exhausted(poll.answers, totals, poll.rounds, u'.at, k))
      && u'.count == if poll.done then Max(u.count, LeastCount(first.count, poll.answers, poll.rounds)) else u.count
  }

  method Poll(u: User, first: Option<First>, answers: seq<Option<Answer>>, view: ViewKey, ghost totals: seq<seq<nat>>,
              ghost final: Store)
    returns (done: bool, u': User, ghost poll: PollRecord)
    requires UserShape(u)
    requires first.Some? ==> Consistent(answers, view, Learned(u, first.value.page).egress, totals, final)
    ensures poll.first == first && poll.answers == answers && poll.done == done
    ensures Polls(final, view, totals, u, poll, u')
    ensures done || first.None? || first.value.count <= u.count
            || poll.rounds == |answers| || answers[poll.rounds].None?
    ensures first.Some? && u.count < first.value.count && Steady(answers, totals)
            && Enough(totals[0], Learned(u, first.value.page).at, |answers|) ==>
              done && forall k :: 0 <= k < |u'.at| ==> totals[0][k] <= u'.at[k]
  {
    if first.None? {
      return false, u, PollRecord(first, answers, false, 0, []);
    }
    LearnedKeeps(final, view, u, first.value.page);
    var v := LearnRngs(u, first.value.page);
    v := v.(cursor := CursorAfter(u.cursor, first.value.page));
    if u.count >= first.value.count {
      poll := PollRecord(first, answers, false, 0, seq(|v.egress|, _ => []));
      ZipNothing(v.found);
      return false, v, poll;
    }
    var at, found, count;
    ghost var rounds;
    done, at, found, count, rounds := Search(answers, view, v.egress, v.at, first.value.count, totals, final);
    poll := PollRecord(first, answers, done, rounds, found);
    u' := v.(at := at, found := Zip(v.found, found), count := if done && count > u.count then count else u.count);
  }

  /** A poll keeps what was found and adds only further outputs of each rng. */
  lemma PollKeeps(final: Store, view: ViewKey, totals: seq<seq<nat>>, u: User, poll: PollRecord, u': User)
    requires UserOk(final, view, u) && Polls(final, view, totals, u, poll, u')
    ensures UserOk(final, view, u') && Keeps(u, u') && u.count <= u'.count
  {
    if poll.first.Some? {
      var v := Learned(u, poll.first.value.page);
      LearnedKeeps(final, view, u, poll.first.value.page);
      WalksOn(final, final, view, v.egress, seq(|v.egress|, _ => 0), v.at, u'.at, v.found, poll.hits);
      LeastCountBelow(poll.first.value.count, poll.answers, poll.rounds);
    }
  }

  /** If the count moved, the search came to its end and no count told along the way was smaller. */
  lemma MovedCountIsLeast(final: Store, view: ViewKey, totals: seq<seq<nat>>, u: User, poll: PollRecord, u': User)
    requires Polls(final, view, totals, u, poll, u') && u.count < u'.count
    ensures poll.done && poll.first.Some? && u'.count <= poll.first.value.count && poll.rounds <= |poll.answers|
    ensures forall i :: 0 <= i < poll.rounds ==> poll.answers[i].Some? && u'.count <= poll.answers[i].value.count
  {
    LeastCountBelow(poll.first.value.count, poll.answers, poll.rounds);
  }

  /** A search that came to its end moves the count to one that was told, unless the user's is larger. */
  lemma DoneMovesCount(final: Store, view: ViewKey, totals: seq<seq<nat>>, u: User, poll: PollRecord, u': User)
    requires Polls(final, view, totals, u, poll, u') && poll.done
    ensures poll.first.Some? && poll.rounds <= |poll.answers| && u.count <= u'.count
    ensures poll.first.value.count <= u'.count || exists i :: 0 <= i < poll.rounds && poll.answers[i].Some?
                                                              && poll.answers[i].value.count <= u'.count
  {
    LeastCountIsTold(poll.first.value.count, poll.answers, poll.rounds);
  }
}
