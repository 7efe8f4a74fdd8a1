/** The discussion phase as values: the decay of an information event, the
    number of neighbours it reaches, the messages a speaker sends, and what a
    listener's buffers hold after receiving them. `Agents.Agent.Discuss` is
    specified by these functions. */
module Discussion {
  import opened Common
  import opened Status
  import opened Config

  /** What a listener's buffers hold: the opinion and uncertainty deltas, the
      pending-information flag and the next round's queue of origination steps. */
  datatype Inbox = Inbox(opDelta: real, uDelta: real, flag: bool, queueNew: seq<nat>)

  /** What discussion reads of an agent, speaker or listener. */
  datatype View = View(op: real, u: real, info: bool, decision: Decision)

  /** One message: the chosen neighbour index, the origination step carried,
      and whether the information-transmission draw succeeded. */
  datatype Send = Send(target: nat, t0: nat, hit: bool)

  /** The salience of an event originated at t0 when discussed at t. */
  function Proportion(gamma: real, t: nat, t0: nat): (r: real)
    ensures r >= 0.0
    ensures gamma >= 0.0 && t0 <= t ==> r <= 1.0
    ensures t0 == t ==> r == 1.0
  {
    Max(1.0 - gamma * ((t - t0) as real), 0.0)
  }

  /** Once at least 1/gamma steps have passed, an event has fully decayed. */
  lemma ProportionVanishes(gamma: real, t: nat, t0: nat)
    requires gamma > 0.0 && t0 <= t && (t - t0) as real >= 1.0 / gamma
    ensures Proportion(gamma, t, t0) == 0.0
  {
    var d := (t - t0) as real;
    assert gamma * d >= gamma * (1.0 / gamma);
    assert gamma * (1.0 / gamma) == 1.0;
  }

  /** `round(len(net) * proportion)`: how many neighbours an event reaches. */
  function NumToDiscuss(netSize: nat, prop: real): (r: nat)
    requires prop >= 0.0
    ensures prop <= 1.0 ==> r <= netSize
    ensures prop == 1.0 ==> r == netSize
    ensures netSize == 0 ==> r == 0
    ensures r == 0 <==> netSize as real * prop <= 0.5
  {
    var x := netSize as real * prop;
    RoundHalfEvenZero(x);
    ReachWithin(netSize, prop);
    RoundHalfEven(x)
  }

  lemma ReachWithin(netSize: nat, prop: real)
    requires prop >= 0.0
    ensures 0 <= RoundHalfEven(netSize as real * prop)
    ensures prop <= 1.0 ==> RoundHalfEven(netSize as real * prop) <= netSize
  {
    ReachNonNegative(netSize, prop);
    if prop <= 1.0 {
      ReachAtMost(netSize, prop);
    }
  }

  lemma ReachNonNegative(netSize: nat, prop: real)
    requires prop >= 0.0
    ensures 0 <= RoundHalfEven(netSize as real * prop)
  {
    ProductSign(netSize as real, prop);
    RoundHalfEvenNonNegative(netSize as real * prop);
  }

  lemma ReachAtMost(netSize: nat, prop: real)
    requires 0.0 <= prop <= 1.0
    ensures RoundHalfEven(netSize as real * prop) <= netSize
  {
    ProductAtMost(netSize as real, prop);
    RoundHalfEvenBetween(netSize as real * prop, 0, netSize);
  }

  /** A fraction q in [0, 1] of n >= 0 lies between 0 and n. */
  lemma ProductAtMost(n: real, q: real)
    requires n >= 0.0 && 0.0 <= q <= 1.0
    ensures 0.0 <= n * q <= n
  {
    ProductSign(n, q);
    ProductSign(n, 1.0 - q);
  }

  /** The signs of a product. Stated as implications, so that callers can use
      it without first splitting cases. */
  lemma ProductSign(x: real, y: real)
    ensures x >= 0.0 && y >= 0.0 ==> x * y >= 0.0
    ensures x >= 0.0 && y <= 0.0 ==> x * y <= 0.0
    ensures x > 0.0 && y > 0.0 ==> x * y > 0.0
  {
  }

  /** The overlap of the speaker's and the listener's intervals. It never
      exceeds the width of either, so an overlap above the speaker's
      uncertainty needs that uncertainty to be positive. */
  function Overlap(s: View, p: View): (r: real)
    ensures r <= 2.0 * s.u && r <= 2.0 * p.u
    ensures r > s.u ==> s.u > 0.0
  {
    Min(s.op + s.u, p.op + p.u) - Max(s.op - s.u, p.op - p.u)
  }

  /** The factor mu * (h/u - 1) by which the speaker pulls the listener; 0
      unless the overlap h exceeds the speaker's uncertainty u. */
  function Pull(s: View, p: View, mu: real): (r: real)
    ensures r != 0.0 ==> Overlap(s, p) > s.u && s.u > 0.0
  {
    if Overlap(s, p) > s.u then mu * (Overlap(s, p) / s.u - 1.0) else 0.0
  }

  /** The change one exchange adds to the listener's (opinion, uncertainty)
      deltas. A speaker whose uncertainty is not positive never passes the
      overlap test, so it adds nothing. */
  function Influence(s: View, p: View, mu: real): (r: (real, real))
    ensures r != (0.0, 0.0) ==> Overlap(s, p) > s.u
  {
    Shift(Pull(s, p, mu), s, p)
  }

  /** The deltas that move listener p a fraction k of its distance to speaker
      s, in opinion and in uncertainty. */
  function Shift(k: real, s: View, p: View): (real, real)
  {
    (k * (s.op - p.op), k * (s.u - p.u))
  }

  /** With mu in [0, 1], one exchange moves the listener towards the speaker
      and never past it, in opinion and uncertainty. */
  lemma InfluenceTowardsSpeaker(s: View, p: View, mu: real)
    requires 0.0 <= mu <= 1.0
    ensures var r := Influence(s, p, mu);
            Min(p.op, s.op) <= p.op + r.0 <= Max(p.op, s.op)
            && Min(p.u, s.u) <= p.u + r.1 <= Max(p.u, s.u)
    ensures s.u <= 0.0 ==> Influence(s, p, mu) == (0.0, 0.0)
  {
    PullBounds(s, p, mu);
    ShiftTowards(Pull(s, p, mu), s, p);
  }

  /** A shift by a fraction k in [0, 1] stays between listener and speaker. */
  lemma ShiftTowards(k: real, s: View, p: View)
    requires 0.0 <= k <= 1.0
    ensures Min(p.op, s.op) <= p.op + Shift(k, s, p).0 <= Max(p.op, s.op)
    ensures Min(p.u, s.u) <= p.u + Shift(k, s, p).1 <= Max(p.u, s.u)
  {
    TowardsBy(k, p.op, s.op);
    TowardsBy(k, p.u, s.u);
  }

  /** A fraction k in [0, 1] of the way from a to b stays between them. */
  lemma TowardsBy(k: real, a: real, b: real)
    ensures 0.0 <= k <= 1.0 ==> Min(a, b) <= a + k * (b - a) <= Max(a, b)
  {
    ProductSign(k, b - a);
    ProductSign(1.0 - k, b - a);
  }

  /** The pull factor lies in [0, 1] whenever the speaker pulls at all. */
  lemma PullBounds(s: View, p: View, mu: real)
    requires 0.0 <= mu <= 1.0
    ensures 0.0 <= Pull(s, p, mu) <= 1.0
  {
    if Overlap(s, p) > s.u {
      PullFactor(Overlap(s, p), s.u, mu);
    }
  }

  /** The pull factor mu * (h/u - 1) lies in [0, 1] when u < h <= 2u. */
  lemma PullFactor(h: real, u: real, mu: real)
    requires u > 0.0 && 0.0 <= mu <= 1.0
    ensures u < h <= 2.0 * u ==> 0.0 <= mu * (h / u - 1.0) <= 1.0
  {
    QuotientBounds(h, u);
    ProductSign(mu, h / u - 1.0);
    ProductSign(1.0 - mu, h / u - 1.0);
  }

  /** h/u exceeds 1 when h exceeds u, and stays at most 2 when h <= 2u. */
  lemma QuotientBounds(h: real, u: real)
    requires u > 0.0
    ensures h > u ==> h / u > 1.0
    ensures h <= 2.0 * u ==> h / u <= 2.0
  {
    var q := h / u;
    assert q * u == h;
    ProductSign(1.0 - q, u);
    ProductSign(q - 2.0, u);
  }

  /** Whether a speaker that reaches this listener may hand over information. */
  predicate CanInform(s: View, p: View)
  {
    s.info && !p.info && p.decision == InfoRequest
  }

  /** One exchange from speaker s to listener p, into p's buffers. */
  function Exchange(inbox: Inbox, s: View, p: View, d: Send, mu: real): (r: Inbox)
    ensures r.queueNew == inbox.queueNew + [d.t0]
    ensures r.flag ==> inbox.flag || (s.info && d.hit)
  {
    var (dOp, dU) := Influence(s, p, mu);
    Inbox(inbox.opDelta + dOp, inbox.uDelta + dU,
          inbox.flag || (CanInform(s, p) && d.hit),
          inbox.queueNew + [d.t0])
  }

  /** The listener's buffers after the given messages, in order. */
  function Receive(inbox: Inbox, s: View, p: View, ds: seq<Send>, mu: real): Inbox
  {
    if ds == [] then inbox
    else Exchange(Receive(inbox, s, p, ds[..|ds| - 1], mu), s, p, ds[|ds| - 1], mu)
  }

  function T0s(ds: seq<Send>): (r: seq<nat>)
    ensures |r| == |ds| && forall i :: 0 <= i < |ds| ==> r[i] == ds[i].t0
  {
    seq(|ds|, i requires 0 <= i < |ds| => ds[i].t0)
  }

  function CountHits(ds: seq<Send>): nat
  {
    if ds == [] then 0 else CountHits(ds[..|ds| - 1]) + (if ds[|ds| - 1].hit then 1 else 0)
  }

  /** After receiving messages, a listener's buffers hold: every carried step
      appended in order, the same per-message pull once per message, and the
      flag raised exactly when some message could inform and its draw hit. */
  lemma {:induction false} ReceiveClosedForm(inbox: Inbox, s: View, p: View, ds: seq<Send>, mu: real)
    ensures var r := Receive(inbox, s, p, ds, mu);
            && r.queueNew == inbox.queueNew + T0s(ds)
            && r.opDelta == inbox.opDelta + |ds| as real * Influence(s, p, mu).0
            && r.uDelta == inbox.uDelta + |ds| as real * Influence(s, p, mu).1
            && r.flag == (inbox.flag || (CanInform(s, p) && CountHits(ds) > 0))
  {
    if ds != [] {
      var ds' := ds[..|ds| - 1];
      ReceiveClosedForm(inbox, s, p, ds', mu);
      assert T0s(ds) == T0s(ds') + [ds[|ds| - 1].t0];
    }
  }

  /** An uninformed speaker never raises the listener's flag. */
  lemma {:induction false} ReceiveUninformed(inbox: Inbox, s: View, p: View, ds: seq<Send>, mu: real)
    requires !s.info
    ensures Receive(inbox, s, p, ds, mu).flag == inbox.flag
  {
    if ds != [] {
      ReceiveUninformed(inbox, s, p, ds[..|ds| - 1], mu);
    }
  }

  /** Receiving a concatenation is receiving the parts one after the other. */
  lemma {:induction false} ReceiveAppend(inbox: Inbox, s: View, p: View, a: seq<Send>, b: seq<Send>, mu: real)
    ensures Receive(inbox, s, p, a + b, mu) == Receive(Receive(inbox, s, p, a, mu), s, p, b, mu)
  {
    if b != [] {
      var b' := b[..|b| - 1];
      assert (a + b)[..|a + b| - 1] == a + b';
      ReceiveAppend(inbox, s, p, a, b', mu);
    } else {
      assert a + b == a;
    }
  }

  predicate Targets(ds: seq<Send>, netSize: nat)
  {
    forall i :: 0 <= i < |ds| ==> ds[i].target < netSize
  }

  /** The messages addressed to listener p, in order; a neighbour list may hold
      the same listener more than once. */
  function ToPeer<T(==)>(ds: seq<Send>, net: seq<T>, p: T): (r: seq<Send>)
    requires Targets(ds, |net|)
    ensures |r| <= |ds|
    ensures forall i :: 0 <= i < |r| ==> r[i] in ds && net[r[i].target] == p
  {
    if ds == [] then []
    else
      var last := ds[|ds| - 1];
      ToPeer(ds[..|ds| - 1], net, p) + (if net[last.target] == p then [last] else [])
  }

  lemma {:induction false} ToPeerAppend<T>(a: seq<Send>, b: seq<Send>, net: seq<T>, p: T)
    requires Targets(a, |net|) && Targets(b, |net|)
    ensures Targets(a + b, |net|)
    ensures ToPeer(a + b, net, p) == ToPeer(a, net, p) + ToPeer(b, net, p)
  {
    if b == [] {
      assert a + b == a;
    } else {
      var b' := b[..|b| - 1];
      assert (a + b)[..|a + b| - 1] == a + b';
      ToPeerAppend(a, b', net, p);
    }
  }

  /** Every message reaches exactly one listener: over a list of distinct
      listeners that covers the neighbour list, the messages addressed to each
      add up to all of them. */
  lemma {:induction false} ToPeerSplits<T>(ds: seq<Send>, net: seq<T>, ms: seq<T>)
    requires Targets(ds, |net|)
    requires forall i, j :: 0 <= i < j < |ms| ==> ms[i] != ms[j]
    requires forall k :: 0 <= k < |net| ==> net[k] in ms
    ensures SumToPeers(ds, net, ms) == |ds|
  {
    if ds == [] {
      SumToPeersNone(net, ms);
    } else {
      var d := ds[|ds| - 1];
      ToPeerSplits(ds[..|ds| - 1], net, ms);
      SumToPeersSnoc(ds, net, ms);
      OccursOnce(ms, net[d.target]);
    }
  }

  /** The number of messages addressed to the listeners of `ms`, together. */
  function SumToPeers<T(==)>(ds: seq<Send>, net: seq<T>, ms: seq<T>): nat
    requires Targets(ds, |net|)
  {
    if ms == [] then 0 else SumToPeers(ds, net, ms[..|ms| - 1]) + |ToPeer(ds, net, ms[|ms| - 1])|
  }

  /** How often x occurs in ms. */
  function Occurrences<T(==)>(ms: seq<T>, x: T): nat
  {
    if ms == [] then 0 else Occurrences(ms[..|ms| - 1], x) + (if ms[|ms| - 1] == x then 1 else 0)
  }

  lemma {:induction false} SumToPeersNone<T>(net: seq<T>, ms: seq<T>)
    ensures SumToPeers([], net, ms) == 0
  {
    if ms != [] {
      SumToPeersNone(net, ms[..|ms| - 1]);
    }
  }

  /** The last message adds one to the count of every occurrence of its listener. */
  lemma {:induction false} SumToPeersSnoc<T>(ds: seq<Send>, net: seq<T>, ms: seq<T>)
    requires ds != [] && Targets(ds, |net|)
    ensures SumToPeers(ds, net, ms) ==
            SumToPeers(ds[..|ds| - 1], net, ms) + Occurrences(ms, net[ds[|ds| - 1].target])
  {
    if ms != [] {
      SumToPeersSnoc(ds, net, ms[..|ms| - 1]);
    }
  }

  lemma {:induction false} OccursOnce<T>(ms: seq<T>, x: T)
    requires forall i, j :: 0 <= i < j < |ms| ==> ms[i] != ms[j]
    requires x in ms
    ensures Occurrences(ms, x) == 1
  {
    var m' := ms[..|ms| - 1];
    if ms[|ms| - 1] == x {
      OccursNot(m', x);
    } else {
      assert x in m';
      OccursOnce(m', x);
    }
  }

  lemma {:induction false} OccursNot<T>(ms: seq<T>, x: T)
    requires x !in ms
    ensures Occurrences(ms, x) == 0
  {
    if ms != [] {
      assert ms[|ms| - 1] in ms;
      OccursNot(ms[..|ms| - 1], x);
    }
  }

  /** The messages of the k-th queue entry: one per draw j < n, addressed to
      neighbour index pick(k, j) reduced into the neighbour list, with the
      transmission draw talk(k, j) < omega. */
  function EntrySends(k: nat, t0: nat, n: nat, netSize: nat, pick: (nat, nat) -> nat,
                      talk: (nat, nat) -> real, omega: real): (r: seq<Send>)
    requires n == 0 || netSize > 0
    ensures |r| == n && Targets(r, netSize)
    ensures forall j :: 0 <= j < n ==> r[j] == Send(pick(k, j) % netSize, t0, talk(k, j) < omega)
  {
    seq(n, j requires 0 <= j < n => Send(pick(k, j) % netSize, t0, talk(k, j) < omega))
  }

  /** The number of neighbours the k-th entry reaches at step t. */
  function EntryReach(p: Params, queue: seq<nat>, k: nat, netSize: nat, t: nat): nat
    requires k < |queue|
  {
    NumToDiscuss(netSize, Proportion(p.gamma, t, queue[k]))
  }

  /** All messages a speaker sends for the first k entries of its queue. */
  function AllSends(p: Params, queue: seq<nat>, netSize: nat, t: nat,
                    pick: (nat, nat) -> nat, talk: (nat, nat) -> real, k: nat): (r: seq<Send>)
    requires k <= |queue|
    ensures Targets(r, netSize)
    ensures forall i :: 0 <= i < |r| ==> r[i].t0 in queue[..k]
  {
    if k == 0 then []
    else
      var n := EntryReach(p, queue, k - 1, netSize, t);
      var rest := AllSends(p, queue, netSize, t, pick, talk, k - 1);
      var e := EntrySends(k - 1, queue[k - 1], n, netSize, pick, talk, p.omega);
      assert forall i :: 0 <= i < |rest| ==> rest[i].t0 in queue[..k] by {
        assert queue[..k - 1] <= queue[..k];
      }
      rest + e
  }

  /** The total of the reaches of the first k entries. */
  function TotalReach(p: Params, queue: seq<nat>, netSize: nat, t: nat, k: nat): nat
    requires k <= |queue|
  {
    if k == 0 then 0 else TotalReach(p, queue, netSize, t, k - 1) + EntryReach(p, queue, k - 1, netSize, t)
  }

  /** A speaker sends exactly as many messages as its entries reach neighbours;
      an entry that reaches none sends nothing. */
  lemma {:induction false} AllSendsCount(p: Params, queue: seq<nat>, netSize: nat, t: nat,
                                         pick: (nat, nat) -> nat, talk: (nat, nat) -> real, k: nat)
    requires k <= |queue|
    ensures |AllSends(p, queue, netSize, t, pick, talk, k)| == TotalReach(p, queue, netSize, t, k)
  {
    if k > 0 {
      AllSendsCount(p, queue, netSize, t, pick, talk, k - 1);
    }
  }

  /** Each entry reaches at most every neighbour, provided no entry was
      originated after the discussion step and gamma is non-negative. */
  lemma {:induction false} TotalReachBound(p: Params, queue: seq<nat>, netSize: nat, t: nat, k: nat)
    requires k <= |queue| && p.gamma >= 0.0
    requires forall i :: 0 <= i < |queue| ==> queue[i] <= t
    ensures TotalReach(p, queue, netSize, t, k) <= k * netSize
  {
    if k > 0 {
      TotalReachBound(p, queue, netSize, t, k - 1);
      EntryReachAtMost(p, queue, k - 1, netSize, t);
      assert (k - 1) * netSize + netSize == k * netSize;
    }
  }

  lemma EntryReachAtMost(p: Params, queue: seq<nat>, k: nat, netSize: nat, t: nat)
    requires k < |queue| && p.gamma >= 0.0 && queue[k] <= t
    ensures EntryReach(p, queue, k, netSize, t) <= netSize
  {
    var prop := Proportion(p.gamma, t, queue[k]);
    assert prop <= 1.0;
  }
}
