/** Building concrete runs step by step. */
module RunBuilder {
  import opened RecoveryTables
  import opened ControllerState
  import opened IngestProtocol

  function Last(t: Trace): World
    requires |t.worlds| > 0
  {
    t.worlds[|t.worlds| - 1]
  }

  /** One more step, in which server `id` moves. */
  lemma Next(t: Trace, id: ServerId, act: Action, db': Db, s': Server, issued': set<EgressKey>) returns (t': Trace)
    requires IsRun(t) && id < |Last(t).servers|
    requires ActEnabled(Last(t), id, act) && Act(Last(t), id, act) == Local(db', s')
    requires NeverDrawsAgain(Last(t).servers[id], act)
    requires match FreshEgress(Last(t).servers[id], act) {
               case None => issued' == Last(t).issued
               case Some(e) => e !in Last(t).issued && issued' == Last(t).issued + {e} }
    ensures IsRun(t') && t'.worlds == t.worlds + [World(Last(t).ledger, db', Last(t).servers[id := s'], issued')]
    ensures t'.steps == t.steps + [By(id, act)]
  {
    t' := Trace(t.worlds + [World(Last(t).ledger, db', Last(t).servers[id := s'], issued')], t.steps + [By(id, act)]);
    forall n | 0 <= n < |t'.steps|
      ensures Enabled(t'.worlds[n], t'.steps[n]) && t'.worlds[n + 1] == Apply(t'.worlds[n], t'.steps[n])
    {
      if n < |t.steps| {
        assert t'.worlds[n] == t.worlds[n] && t'.worlds[n + 1] == t.worlds[n + 1];
      }
    }
  }

  /** One more block in the ledger. */
  lemma Grow(t: Trace, b: Block) returns (t': Trace)
    requires IsRun(t) && |b.outputs| <= b.cumulativeTxoCount
    ensures IsRun(t') && t'.worlds == t.worlds + [Last(t).(ledger := Last(t).ledger + [b])]
    ensures t'.steps == t.steps + [LedgerGrows(b)]
  {
    t' := Trace(t.worlds + [Last(t).(ledger := Last(t).ledger + [b])], t.steps + [LedgerGrows(b)]);
    forall n | 0 <= n < |t'.steps|
      ensures Enabled(t'.worlds[n], t'.steps[n]) && t'.worlds[n + 1] == Apply(t'.worlds[n], t'.steps[n])
    {
      if n < |t.steps| {
        assert t'.worlds[n] == t.worlds[n] && t'.worlds[n + 1] == t.worlds[n + 1];
      }
    }
  }
}
