/** Sums of postings per user. */
module Postings {
  import opened Ledger

  function Part(p: Posting, user: string): int { if p.user == user then p.amount else 0 }

  // What a table of postings holds for one user.
  ghost function Sum<K(!new)>(m: map<K, Posting>, user: string): int
    decreases |m|
  {
    if m == map[] then 0
    else
      var k :| k in m;
      Part(m[k], user) + Sum(m - {k}, user)
  }

  lemma {:induction false} SumPick<K(!new)>(m: map<K, Posting>, k: K, user: string)
    requires k in m
    ensures Sum(m, user) == Part(m[k], user) + Sum(m - {k}, user)
    decreases |m|
  {
    var j :| j in m && Sum(m, user) == Part(m[j], user) + Sum(m - {j}, user);
    if j != k {
      SumPick(m - {j}, k, user);
      SumPick(m - {k}, j, user);
      assert (m - {j}) - {k} == (m - {k}) - {j};
    }
  }

  lemma SumAdd<K(!new)>(m: map<K, Posting>, k: K, p: Posting, user: string)
    requires k !in m
    ensures Sum(m[k := p], user) == Sum(m, user) + Part(p, user)
  {
    SumPick(m[k := p], k, user);
    assert m[k := p] - {k} == m;
  }

  predicate Positive<K>(m: map<K, Posting>) { forall k :: k in m ==> 0 < m[k].amount }

  lemma {:induction false} SumNonNegative<K(!new)>(m: map<K, Posting>, user: string)
    requires Positive(m)
    ensures 0 <= Sum(m, user)
    decreases |m|
  {
    if m == map[] {
      assert Sum(m, user) == 0;
    } else {
      var k :| k in m && Sum(m, user) == Part(m[k], user) + Sum(m - {k}, user);
      SumNonNegative(m - {k}, user);
      assert 0 <= Part(m[k], user);
      assert 0 <= Sum(m - {k}, user);
    }
  }

  lemma SumAtLeast<K(!new)>(m: map<K, Posting>, k: K, user: string)
    requires Positive(m) && k in m
    ensures Part(m[k], user) <= Sum(m, user)
  {
    SumPick(m, k, user);
    SumNonNegative(m - {k}, user);
  }

  // The sum over a table that contains another, entry for entry.
  lemma {:induction false} SumSubset<K(!new)>(m: map<K, Posting>, all: map<K, Posting>, user: string)
    requires Positive(all) && forall k :: k in m ==> k in all && all[k] == m[k]
    ensures Sum(m, user) <= Sum(all, user)
    decreases |m|
  {
    if m == map[] {
      SumNonNegative(all, user);
    } else {
      var k :| k in m && Sum(m, user) == Part(m[k], user) + Sum(m - {k}, user);
      SumPick(all, k, user);
      SumSubset(m - {k}, all - {k}, user);
    }
  }

  // Taking a sub-table out.
  lemma {:induction false} SumMinus<K(!new)>(all: map<K, Posting>, m: map<K, Posting>, user: string)
    requires forall k :: k in m ==> k in all && all[k] == m[k]
    ensures Sum(all - m.Keys, user) == Sum(all, user) - Sum(m, user)
    decreases |m|
  {
    if m == map[] {
      assert all - m.Keys == all;
    } else {
      var k :| k in m && Sum(m, user) == Part(m[k], user) + Sum(m - {k}, user);
      SumPick(all, k, user);
      SumMinus(all - {k}, m - {k}, user);
      assert (all - {k}) - (m - {k}).Keys == all - m.Keys;
    }
  }
}
