/** The order of scored candidates, and why the order of the input does not show in it. */
module ScoringRanking {
  import opened Collections
  import opened ScoringEvaluators
  import opened ScoringPolicy
  import opened ScoringEngine

  datatype Rank = Rank(score: real, cost: real, id: int)

  predicate AtOrBefore(a: Rank, b: Rank) {
    a.score > b.score || (a.score == b.score && (a.cost < b.cost || (a.cost == b.cost && a.id <= b.id)))
  }

  /** The cost of the first candidate with the identifier; no cost counts as zero. */
  function TotalCost(id: int, candidates: seq<Listing>): real {
    if candidates == [] then 0.0
    else if candidates[0].id == id then (if candidates[0].totalCost.Some? then candidates[0].totalCost.value else 0.0)
    else TotalCost(id, candidates[1..])
  }

  const BY_COST: seq<string> := ["score", "total_cost_asc", "listing_id_asc"]

  /** Any tie-break but the full one orders by score and identifier alone. */
  function RankOf(tieBreak: seq<string>, candidates: seq<Listing>): Scored -> Rank {
    (s: Scored) => Rank(s.score, if tieBreak == BY_COST then TotalCost(s.id, candidates) else 0.0, s.id)
  }

  // ---- sorting ----

  ghost predicate Ordered(s: seq<Scored>, rank: Scored -> Rank) {
    forall i, j :: 0 <= i < j < |s| ==> AtOrBefore(rank(s[i]), rank(s[j]))
  }

  function Insert(x: Scored, s: seq<Scored>, rank: Scored -> Rank): (r: seq<Scored>)
    ensures multiset(r) == multiset(s) + multiset{x}
  {
    if s == [] then [x]
    else if AtOrBefore(rank(x), rank(s[0])) then [x] + s
    else
      assert s == [s[0]] + s[1..];
      [s[0]] + Insert(x, s[1..], rank)
  }

  function Sorted(s: seq<Scored>, rank: Scored -> Rank): (r: seq<Scored>)
    ensures multiset(r) == multiset(s)
  {
    if s == [] then []
    else
      assert s == [s[0]] + s[1..];
      Insert(s[0], Sorted(s[1..], rank), rank)
  }

  lemma {:induction false} InsertOrdered(x: Scored, s: seq<Scored>, rank: Scored -> Rank)
    requires Ordered(s, rank)
    ensures Ordered(Insert(x, s, rank), rank)
  {
    if s != [] && !AtOrBefore(rank(x), rank(s[0])) {
      InsertOrdered(x, s[1..], rank);
      var r := Insert(x, s[1..], rank);
      forall j | 0 <= j < |r| ensures AtOrBefore(rank(s[0]), rank(r[j])) {
        assert r[j] in multiset(s[1..]) + multiset{x};
        if r[j] != x {
          assert r[j] in s[1..];
          var k :| 0 <= k < |s[1..]| && s[1..][k] == r[j];
          assert AtOrBefore(rank(s[0]), rank(s[k + 1]));
        }
      }
    }
  }

  lemma {:induction false} SortedIsOrdered(s: seq<Scored>, rank: Scored -> Rank)
    ensures Ordered(Sorted(s, rank), rank)
  {
    if s == [] {
    } else {
      SortedIsOrdered(s[1..], rank);
      InsertOrdered(s[0], Sorted(s[1..], rank), rank);
    }
  }

  /** Identifiers tell scored candidates apart. */
  ghost predicate Told(s: seq<Scored>) {
    forall x, y :: x in s && y in s && x.id == y.id ==> x == y
  }

  lemma SameHead(s: seq<Scored>, t: seq<Scored>, rank: Scored -> Rank)
    requires multiset(s) == multiset(t) && Ordered(s, rank) && Ordered(t, rank) && Told(s) && s != []
    requires forall x :: rank(x).id == x.id
    ensures t != [] && s[0] == t[0]
  {
    assert |s| == |multiset(s)| == |t|;
    var i := SameMembers(s, t, 0);
    var j := SameMembers(t, s, 0);
    assert AtOrBefore(rank(t[0]), rank(s[0])) || i == 0;
    assert AtOrBefore(rank(s[0]), rank(t[0])) || j == 0;
    assert s[0].id == t[0].id;
    assert s[j] in s && s[0] in s;
  }

  lemma TailMultiset(s: seq<Scored>)
    requires s != []
    ensures multiset(s[1..]) == multiset(s) - multiset{s[0]}
  {
    assert s == [s[0]] + s[1..];
  }

  /** A set of candidates has one order. */
  lemma {:induction false} OrderIsUnique(s: seq<Scored>, t: seq<Scored>, rank: Scored -> Rank)
    requires multiset(s) == multiset(t) && Ordered(s, rank) && Ordered(t, rank) && Told(s)
    requires forall x :: rank(x).id == x.id
    ensures s == t
    decreases |s|
  {
    assert |s| == |multiset(s)| == |t|;
    if s == [] {
    } else {
      SameHead(s, t, rank);
      TailMultiset(s);
      TailMultiset(t);
      OrderIsUnique(s[1..], t[1..], rank);
      assert s == [s[0]] + s[1..] && t == [t[0]] + t[1..];
    }
  }

  /** Ranks that agree on the candidates sort them alike. */
  lemma {:induction false} SortedAgrees(s: seq<Scored>, rank: Scored -> Rank, other: Scored -> Rank)
    requires forall x :: x in s ==> rank(x) == other(x)
    ensures Sorted(s, rank) == Sorted(s, other)
  {
    if s == [] {
    } else {
      SortedAgrees(s[1..], rank, other);
      forall x | x in Sorted(s[1..], rank) ensures rank(x) == other(x) {
        assert x in multiset(s[1..]);
      }
      InsertAgrees(s[0], Sorted(s[1..], rank), rank, other);
    }
  }

  lemma {:induction false} InsertAgrees(x: Scored, s: seq<Scored>, rank: Scored -> Rank, other: Scored -> Rank)
    requires rank(x) == other(x) && forall y :: y in s ==> rank(y) == other(y)
    ensures Insert(x, s, rank) == Insert(x, s, other)
  {
    if s == [] {
    } else {
      InsertAgrees(x, s[1..], rank, other);
    }
  }

  // ---- scoring a list of candidates ----

  /** What scoring one listing gives; the profile, observations and policy are inside. */
  type Scorer = Listing -> Option<Scored>

  function Observed(all: map<int, Observations>, id: int): Observations {
    if id in all then all[id] else map[]
  }

  function ScorerOf(fold: string -> string, profile: Profile, all: map<int, Observations>, p: Policy): Scorer {
    (l: Listing) => ScoreOf(Case(fold, profile, l, Observed(all, l.id)), p)
  }

  function Kept(scorer: Scorer, candidates: seq<Listing>): seq<Scored> {
    if candidates == [] then []
    else
      var r := scorer(candidates[|candidates| - 1]);
      Kept(scorer, candidates[..|candidates| - 1]) + (if r.Some? then [r.value] else [])
  }

  function Ranking(scorer: Scorer, candidates: seq<Listing>, tieBreak: seq<string>): seq<Scored> {
    Sorted(Kept(scorer, candidates), RankOf(tieBreak, candidates))
  }

  function CostOf(l: Listing): real { if l.totalCost.Some? then l.totalCost.value else 0.0 }

  /** Best score first.  At equal scores the full tie-break puts the cheaper listing first, and at equal costs, as under
      any other tie-break, the smaller identifier. */
  ghost predicate BestFirst(r: seq<Scored>, candidates: seq<Listing>, tieBreak: seq<string>) {
    && (forall i, j :: 0 <= i < j < |r| ==> r[i].score >= r[j].score)
    && (tieBreak != ["score", "total_cost_asc", "listing_id_asc"] ==>
          forall i, j :: 0 <= i < j < |r| && r[i].score == r[j].score ==> r[i].id <= r[j].id)
    && (tieBreak == ["score", "total_cost_asc", "listing_id_asc"] && DistinctIds(candidates) ==>
          forall i, j, k, l ::
            0 <= i < j < |r| && r[i].score == r[j].score && 0 <= k < |candidates| && 0 <= l < |candidates| &&
            candidates[k].id == r[i].id && candidates[l].id == r[j].id ==>
              CostOf(candidates[k]) <= CostOf(candidates[l]) &&
              (CostOf(candidates[k]) == CostOf(candidates[l]) ==> r[i].id <= r[j].id))
  }

  lemma OrderedIsBestFirst(r: seq<Scored>, candidates: seq<Listing>, tieBreak: seq<string>)
    requires Ordered(r, RankOf(tieBreak, candidates))
    ensures BestFirst(r, candidates, tieBreak)
  {
    var rank := RankOf(tieBreak, candidates);
    forall i, j | 0 <= i < j < |r|
      ensures r[i].score >= r[j].score
      ensures tieBreak != BY_COST && r[i].score == r[j].score ==> r[i].id <= r[j].id
    {
      assert AtOrBefore(rank(r[i]), rank(r[j]));
    }
    if tieBreak == BY_COST && DistinctIds(candidates) {
      forall i, j, k, l |
        0 <= i < j < |r| && r[i].score == r[j].score && 0 <= k < |candidates| && 0 <= l < |candidates| &&
        candidates[k].id == r[i].id && candidates[l].id == r[j].id
        ensures CostOf(candidates[k]) <= CostOf(candidates[l])
        ensures CostOf(candidates[k]) == CostOf(candidates[l]) ==> r[i].id <= r[j].id
      {
        assert AtOrBefore(rank(r[i]), rank(r[j]));
        CostOfCandidate(candidates, k);
        CostOfCandidate(candidates, l);
      }
    }
  }

  method ScoreCandidates(fold: string -> string, profile: Profile, candidates: seq<Listing>,
                         observations: map<int, Observations>, p: Policy) returns (r: seq<Scored>)
    ensures r == Ranking(ScorerOf(fold, profile, observations, p), candidates, p.tieBreak)
    ensures BestFirst(r, candidates, p.tieBreak)
    ensures multiset(r) == multiset(Kept(ScorerOf(fold, profile, observations, p), candidates))
  {
    var scored: seq<Scored> := [];
    ghost var scorer := ScorerOf(fold, profile, observations, p);
    var i := 0;
    while i < |candidates|
      invariant 0 <= i <= |candidates|
      invariant scored == Kept(scorer, candidates[..i])
    {
      var l := candidates[i];
      var one := ScoreCandidate(Case(fold, profile, l, Observed(observations, l.id)), p);
      assert candidates[..i + 1][..i] == candidates[..i];
      if one.Some? { scored := scored + [one.value]; }
      i := i + 1;
    }
    assert candidates[..|candidates|] == candidates;
    SortedIsOrdered(scored, RankOf(p.tieBreak, candidates));
    r := Sorted(scored, RankOf(p.tieBreak, candidates));
    OrderedIsBestFirst(r, candidates, p.tieBreak);
  }

  // ---- independence of the input order ----

  predicate DistinctIds(candidates: seq<Listing>) {
    forall i, j :: 0 <= i < j < |candidates| ==> candidates[i].id != candidates[j].id
  }

  lemma {:induction false} CostOfCandidate(candidates: seq<Listing>, k: nat)
    requires k < |candidates| && DistinctIds(candidates)
    ensures TotalCost(candidates[k].id, candidates) ==
            if candidates[k].totalCost.Some? then candidates[k].totalCost.value else 0.0
  {
    if k == 0 {
    } else {
      CostOfCandidate(candidates[1..], k - 1);
    }
  }

  lemma {:induction false} KeptSplit(scorer: Scorer, a: seq<Listing>, b: seq<Listing>)
    ensures Kept(scorer, a + b) == Kept(scorer, a) + Kept(scorer, b)
    decreases |b|
  {
    if b == [] {
      assert a + b == a;
    } else {
      KeptSplit(scorer, a, b[..|b| - 1]);
      assert (a + b)[..|a + b| - 1] == a + b[..|b| - 1];
    }
  }

  lemma KeptPutIn(scorer: Scorer, a: seq<Listing>, l: Listing, b: seq<Listing>)
    ensures multiset(Kept(scorer, a + [l] + b)) == multiset(Kept(scorer, a + b)) + multiset(Kept(scorer, [l]))
  {
    KeptSplit(scorer, a + [l], b);
    KeptSplit(scorer, a, [l]);
    KeptSplit(scorer, a, b);
  }

  lemma {:induction false} KeptIgnoresOrder(scorer: Scorer, a: seq<Listing>, b: seq<Listing>)
    requires multiset(a) == multiset(b)
    ensures multiset(Kept(scorer, a)) == multiset(Kept(scorer, b))
    decreases |a|
  {
    assert |a| == |multiset(a)| == |b|;
    if a == [] {
    } else {
      var i := TakeOut(a, b);
      KeptIgnoresOrder(scorer, a[..|a| - 1], b[..i] + b[i + 1..]);
      KeptPutIn(scorer, b[..i], b[i], b[i + 1..]);
      KeptSplit(scorer, a[..|a| - 1], [b[i]]);
    }
  }

  /** Everything kept is the score of some candidate, and every candidate with a score is kept. */
  lemma {:induction false} KeptMembers(scorer: Scorer, candidates: seq<Listing>, x: Scored)
    ensures x in Kept(scorer, candidates) <==> exists k :: 0 <= k < |candidates| && scorer(candidates[k]) == Some(x)
  {
    if candidates == [] {
    } else {
      var n := |candidates| - 1;
      KeptMembers(scorer, candidates[..n], x);
      if k :| 0 <= k < |candidates| && scorer(candidates[k]) == Some(x) {
        if k < n { assert scorer(candidates[..n][k]) == Some(x); }
      }
      if k :| 0 <= k < n && scorer(candidates[..n][k]) == Some(x) {
        assert scorer(candidates[k]) == Some(x);
      }
    }
  }

  /** Scores carry the identifier of their listing. */
  ghost predicate Faithful(scorer: Scorer) {
    forall l :: scorer(l).Some? ==> scorer(l).value.id == l.id
  }

  lemma KeptAreTold(scorer: Scorer, candidates: seq<Listing>)
    requires Faithful(scorer) && DistinctIds(candidates)
    ensures Told(Kept(scorer, candidates))
  {
    var s := Kept(scorer, candidates);
    forall x, y | x in s && y in s && x.id == y.id ensures x == y {
      KeptMembers(scorer, candidates, x);
      KeptMembers(scorer, candidates, y);
      var j :| 0 <= j < |candidates| && scorer(candidates[j]) == Some(x);
      var k :| 0 <= k < |candidates| && scorer(candidates[k]) == Some(y);
      assert candidates[j].id == candidates[k].id;
    }
  }

  lemma IdsStayDistinct(a: seq<Listing>, b: seq<Listing>)
    requires multiset(a) == multiset(b) && DistinctIds(a)
    ensures DistinctIds(b)
  {
    assert Distinct(a);
    StaysDistinct(a, b);
    forall i, j | 0 <= i < j < |b| ensures b[i].id != b[j].id {
      var x := SameMembers(b, a, i);
      var y := SameMembers(b, a, j);
      assert b[i] != b[j];
    }
  }

  lemma CostsIgnoreOrder(a: seq<Listing>, b: seq<Listing>, l: Listing)
    requires multiset(a) == multiset(b) && DistinctIds(a) && DistinctIds(b) && l in a
    ensures TotalCost(l.id, a) == TotalCost(l.id, b)
  {
    assert l in multiset(b);
    var j :| 0 <= j < |a| && a[j] == l;
    var k :| 0 <= k < |b| && b[k] == l;
    CostOfCandidate(a, j);
    CostOfCandidate(b, k);
  }

  /** Any rearrangement of distinct candidates gives the same sequence of results. */
  lemma InputOrderIsIrrelevant(scorer: Scorer, a: seq<Listing>, b: seq<Listing>, tieBreak: seq<string>)
    requires Faithful(scorer) && DistinctIds(a) && multiset(a) == multiset(b)
    ensures Ranking(scorer, a, tieBreak) == Ranking(scorer, b, tieBreak)
  {
    var s, t := Kept(scorer, a), Kept(scorer, b);
    var rank, other := RankOf(tieBreak, a), RankOf(tieBreak, b);
    IdsStayDistinct(a, b);
    KeptIgnoresOrder(scorer, a, b);
    KeptAreTold(scorer, a);
    forall x | x in t ensures other(x) == rank(x) {
      KeptMembers(scorer, b, x);
      var k :| 0 <= k < |b| && scorer(b[k]) == Some(x);
      assert b[k] in multiset(a);
      CostsIgnoreOrder(a, b, b[k]);
    }
    SortedAgrees(t, other, rank);
    SortedIsOrdered(s, rank);
    SortedIsOrdered(t, rank);
    assert Told(Sorted(s, rank)) by {
      forall x | x in Sorted(s, rank) ensures x in s { assert x in multiset(s); }
    }
    OrderIsUnique(Sorted(s, rank), Sorted(t, rank), rank);
  }

  /** Every ranking is in that order. */
  lemma RankingIsBestFirst(scorer: Scorer, candidates: seq<Listing>, tieBreak: seq<string>)
    ensures BestFirst(Ranking(scorer, candidates, tieBreak), candidates, tieBreak)
  {
    SortedIsOrdered(Kept(scorer, candidates), RankOf(tieBreak, candidates));
    OrderedIsBestFirst(Ranking(scorer, candidates, tieBreak), candidates, tieBreak);
  }

  lemma ScorersAreFaithful(fold: string -> string, profile: Profile, all: map<int, Observations>, p: Policy)
    ensures Faithful(ScorerOf(fold, profile, all, p))
  {
  }

  /** A listing is in the result exactly when no criterion with an excluding gate mismatches, wherever the criterion
      stands. */
  lemma ResultHasExactlyTheUnexcluded(fold: string -> string, profile: Profile, all: map<int, Observations>, p: Policy,
                                      candidates: seq<Listing>, k: nat)
    requires k < |candidates| && DistinctIds(candidates)
    ensures var l := candidates[k]; var r := Ranking(ScorerOf(fold, profile, all, p), candidates, p.tieBreak);
            (exists x :: x in r && x.id == l.id) <==>
                !Excluded(Evaluator(Case(fold, profile, l, Observed(all, l.id))), p.criteria)
  {
    var scorer := ScorerOf(fold, profile, all, p);
    var l, kept := candidates[k], Kept(scorer, candidates);
    var r := Ranking(scorer, candidates, p.tieBreak);
    if scorer(l).Some? {
      KeptMembers(scorer, candidates, scorer(l).value);
      assert scorer(l).value in multiset(kept);
      assert scorer(l).value in r;
    }
    if x :| x in r && x.id == l.id {
      assert x in multiset(kept);
      KeptMembers(scorer, candidates, x);
      var j :| 0 <= j < |candidates| && scorer(candidates[j]) == Some(x);
      ScorersAreFaithful(fold, profile, all, p);
      assert candidates[j].id == l.id;
    }
  }
}
