/** The order in which rows arrive leaves no trace. */
module OrderIndependence {
  import opened Events
  import opened Selection
  import opened Context
  import opened SettlementRule
  import opened Pipeline

  lemma {:induction false} SameSets(s: seq<Event>, t: seq<Event>)
    requires forall e :: e in s <==> e in t
    ensures (set e | e in s :: e.runId) == (set e | e in t :: e.runId)
    ensures (set e | e in s :: e.entity) == (set e | e in t :: e.entity)
    ensures (set e | e in s :: e.currency) == (set e | e in t :: e.currency)
    ensures s == [] <==> t == []
  {
    if s != [] {
      assert s[0] in t;
    }
    if t != [] {
      assert t[0] in s;
    }
  }

  /** A permutation of the rows is refused for the same reason, or makes the very same batch. */
  lemma {:induction false} SameBatch(s: seq<Event>, t: seq<Event>, policy: Policy)
    requires UniqueIds(s) && multiset(s) == multiset(t)
    ensures BatchOf(t, policy) == BatchOf(s, policy)
  {
    SortForgetsOrder(s, t);
    forall e ensures e in s <==> e in t {
      SameRows(s, t, e);
    }
    SameSets(s, t);
    hide ById, UniqueIds;
    if BatchOf(s, policy).Ok? {
      assert s[0] in s && t[0] in s;
      SingletonMembers(set e | e in s :: e.runId, s[0].runId, t[0].runId);
      SingletonMembers(set e | e in s :: e.entity, s[0].entity, t[0].entity);
    }
  }

  /** Reconciling any permutation of a batch gives identical proposals, decisions and exceptions, and
      its indexes answer every lookup identically. */
  lemma {:induction false} OrderIsImmaterial(s: seq<Event>, t: seq<Event>, policy: Policy, similarity: Similarity, ix: Indexes, jx: Indexes)
    requires UniqueIds(s) && multiset(s) == multiset(t) && BatchOf(s, policy).Ok?
    requires Faithful(ix, ById(s)) && Faithful(jx, ById(t))
    ensures BatchOf(t, policy).Ok?
    ensures WellFormed(BatchOf(s, policy).value) && WellFormed(BatchOf(t, policy).value)
    ensures Outcome(BatchOf(t, policy).value, similarity) == Outcome(BatchOf(s, policy).value, similarity)
    ensures forall key ::
      && Lookup(jx.bySettlement, key) == Lookup(ix.bySettlement, key)
      && Lookup(jx.byUtr, key) == Lookup(ix.byUtr, key)
      && Lookup(jx.byExternal, key) == Lookup(ix.byExternal, key)
    ensures forall key :: Lookup(jx.byAmount, key) == Lookup(ix.byAmount, key) && Lookup(jx.byDate, key) == Lookup(ix.byDate, key)
  {
    AcceptedBatchIsWellFormed(s, policy);
    SameBatch(s, t, policy);
    SortForgetsOrder(s, t);
    hide BatchOf, ById, Outcome, Select;
    forall key ensures Lookup(jx.byAmount, key) == Lookup(ix.byAmount, key) && Lookup(jx.byDate, key) == Lookup(ix.byDate, key) {
      assert Lookup(ix.byAmount, key) == OfAmount(ById(s), key);
      assert Lookup(ix.byDate, key) == OnDate(ById(s), key);
    }
    forall key
      ensures && Lookup(jx.bySettlement, key) == Lookup(ix.bySettlement, key)
              && Lookup(jx.byUtr, key) == Lookup(ix.byUtr, key)
              && Lookup(jx.byExternal, key) == Lookup(ix.byExternal, key)
    {
      assert Lookup(ix.bySettlement, key) == Select(ById(s), HasSettlement(key));
      assert Lookup(ix.byUtr, key) == Select(ById(s), HasUtr(key));
      assert Lookup(ix.byExternal, key) == Select(ById(s), HasExternal(key));
    }
  }
}
