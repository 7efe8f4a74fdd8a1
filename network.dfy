/** The construction of the population as values: which agents become
    extremists, and the random directed ties between agents.
    `Population.InnovationDiffusion.InitAgs` builds the agents accordingly. */
module Network {
  import opened Common

  /** The number of agents `range(N)` creates. */
  function NumAgents(n: int): nat
  {
    if n < 0 then 0 else n
  }

  /** The number of ties `init_ags` adds: N for "low", 4N for "high". A
      negative count adds none; any other setting leaves it undefined. */
  function NumEdges(netMedia: string, n: int): (r: Option<nat>)
    ensures r.Some? <==> netMedia == "low" || netMedia == "high"
    ensures netMedia == "low" ==> r == Some(NumAgents(n))
    ensures netMedia == "high" ==> r == Some(4 * NumAgents(n))
  {
    var m := if netMedia == "low" then Some(1 * n) else if netMedia == "high" then Some(4 * n) else None;
    match m
    case None => None
    case Some(e) => Some(if e < 0 then 0 else e)
  }

  // ---------------------------------------------------------------------------
  // Extremists: the first n_ex agents of a stable sort by social opinion,
  // highest first.

  /** Whether agent j comes before agent i in a stable descending sort. */
  predicate Before(ops: seq<real>, j: nat, i: nat)
    requires j < |ops| && i < |ops|
  {
    ops[j] > ops[i] || (ops[j] == ops[i] && j < i)
  }

  /** The number of agents among the first m that come before agent i. */
  function Ahead(ops: seq<real>, i: nat, m: nat): (r: nat)
    requires i < |ops| && m <= |ops|
    ensures r <= m
  {
    if m == 0 then 0 else Ahead(ops, i, m - 1) + (if Before(ops, m - 1, i) then 1 else 0)
  }

  /** Agent i's position in the stable descending sort. */
  function Rank(ops: seq<real>, i: nat): (r: nat)
    requires i < |ops|
    ensures r < |ops|
  {
    AheadIrreflexive(ops, i, |ops|);
    Ahead(ops, i, |ops|)
  }

  lemma {:induction false} AheadIrreflexive(ops: seq<real>, i: nat, m: nat)
    requires i < |ops| && m <= |ops|
    ensures i < m ==> Ahead(ops, i, m) < m
  {
    if m > 0 && i < m {
      if i < m - 1 {
        AheadIrreflexive(ops, i, m - 1);
      }
    }
  }

  /** If every agent before j is also before i, i has no fewer agents ahead. */
  lemma {:induction false} AheadMonotone(ops: seq<real>, i: nat, j: nat, m: nat)
    requires i < |ops| && j < |ops| && m <= |ops|
    requires forall x :: 0 <= x < |ops| && Before(ops, x, j) ==> Before(ops, x, i)
    ensures Ahead(ops, j, m) <= Ahead(ops, i, m)
  {
    if m > 0 {
      AheadMonotone(ops, i, j, m - 1);
    }
  }

  /** And if moreover j itself is before i, i has strictly more ahead. */
  lemma {:induction false} AheadStrict(ops: seq<real>, i: nat, j: nat, m: nat)
    requires i < |ops| && j < |ops| && j < m <= |ops|
    requires forall x :: 0 <= x < |ops| && Before(ops, x, j) ==> Before(ops, x, i)
    requires Before(ops, j, i)
    ensures Ahead(ops, j, m) < Ahead(ops, i, m)
  {
    if m - 1 == j {
      AheadMonotone(ops, i, j, m - 1);
    } else {
      AheadStrict(ops, i, j, m - 1);
    }
  }

  /** An agent that comes before another in the sort has a smaller rank. */
  lemma RankOrdered(ops: seq<real>, i: nat, j: nat)
    requires i < |ops| && j < |ops| && Before(ops, j, i)
    ensures Rank(ops, j) < Rank(ops, i)
  {
    AheadStrict(ops, i, j, |ops|);
  }

  /** Every extremist has a social opinion at least as high as every other
      agent's: the n_ex highest opinions are the ones selected. */
  lemma ExtremistsAreTop(ops: seq<real>, nEx: int, i: nat, j: nat)
    requires i < |ops| && j < |ops|
    requires Rank(ops, i) < nEx <= Rank(ops, j)
    ensures ops[i] >= ops[j]
  {
    if ops[j] > ops[i] {
      RankOrdered(ops, i, j);
    }
  }

  /** No two agents share a rank, so the ranks order the agents strictly. */
  lemma RanksDistinct(ops: seq<real>, i: nat, j: nat)
    requires i < |ops| && j < |ops| && i != j
    ensures Rank(ops, i) != Rank(ops, j)
  {
    if Before(ops, j, i) {
      RankOrdered(ops, i, j);
    } else {
      RankOrdered(ops, j, i);
    }
  }

  // ---------------------------------------------------------------------------
  // Ties: each of the n_edges draws of `choice(pool, replace=False, size=2)`
  // gives an ordered pair of distinct agents (u, v), and v joins u's net.

  /** The ordered pair of distinct agents that a raw draw stands for. Every
      such pair is the image of some draw (`EdgePairOnto`). */
  function EdgePair(raw: (nat, nat), n: nat): (r: (nat, nat))
    requires n >= 2
    ensures r.0 < n && r.1 < n && r.0 != r.1
  {
    var u := raw.0 % n;
    var w := raw.1 % (n - 1);
    (u, if w < u then w else w + 1)
  }

  lemma EdgePairOnto(u: nat, v: nat, n: nat)
    requires n >= 2 && u < n && v < n && u != v
    ensures EdgePair((u, if v < u then v else v - 1), n) == (u, v)
  {
    var w := if v < u then v else v - 1;
    SmallMod(u, n);
    SmallMod(w, n - 1);
  }

  lemma SmallMod(x: nat, n: nat)
    requires x < n
    ensures x % n == x
  {
  }

  /** The agents that agent i's net holds after the first m ties, in order. */
  function EdgeTargets(edge: nat -> (nat, nat), n: nat, m: nat, i: nat): (r: seq<nat>)
    requires n >= 2
    ensures forall k :: 0 <= k < |r| ==> r[k] < n && r[k] != i
  {
    if m == 0 then []
    else
      var e := EdgePair(edge(m - 1), n);
      EdgeTargets(edge, n, m - 1, i) + (if e.0 == i then [e.1] else [])
  }

  /** Agent i's targets when the population has n agents; fewer than two
      agents hold no ties. */
  function Ties(edge: nat -> (nat, nat), n: nat, m: nat, i: nat): (r: seq<nat>)
    ensures forall k :: 0 <= k < |r| ==> r[k] < n && r[k] != i
  {
    if n < 2 then [] else EdgeTargets(edge, n, m, i)
  }

  /** The ties held by the first c agents after the first m ties. */
  function TiesOf(edge: nat -> (nat, nat), n: nat, m: nat, c: nat): nat
    requires n >= 2
  {
    if c == 0 then 0 else TiesOf(edge, n, m, c - 1) + |EdgeTargets(edge, n, m, c - 1)|
  }

  lemma {:induction false} TiesOfStep(edge: nat -> (nat, nat), n: nat, m: nat, c: nat)
    requires n >= 2 && m > 0
    ensures TiesOf(edge, n, m, c) ==
            TiesOf(edge, n, m - 1, c) + (if EdgePair(edge(m - 1), n).0 < c then 1 else 0)
  {
    if c > 0 {
      TiesOfStep(edge, n, m, c - 1);
    }
  }

  lemma {:induction false} TiesOfNone(edge: nat -> (nat, nat), n: nat, c: nat)
    requires n >= 2
    ensures TiesOf(edge, n, 0, c) == 0
  {
    if c > 0 {
      TiesOfNone(edge, n, c - 1);
    }
  }

  /** Over all agents, the nets hold exactly as many ties as were drawn. */
  lemma {:induction false} TiesTotal(edge: nat -> (nat, nat), n: nat, m: nat)
    requires n >= 2
    ensures TiesOf(edge, n, m, n) == m
  {
    if m == 0 {
      TiesOfNone(edge, n, n);
    } else {
      TiesTotal(edge, n, m - 1);
      TiesOfStep(edge, n, m, n);
    }
  }
}
