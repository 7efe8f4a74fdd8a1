/** One agent of the simulation: its opinions, its information, its decision,
    and the buffers through which the discussion phase hands changes to the
    update phase. Random outcomes are passed in as arguments. */
module Agents {
  import opened Common
  import opened Config
  import opened Status
  import opened Discussion

  /** The media reach probability of a network/media setting: 0.1 for "low",
      0.4 for "high"; any other setting leaves it undefined. */
  function MediaProbability(netMedia: string): (r: Option<real>)
    ensures r.Some? <==> netMedia == "low" || netMedia == "high"
    ensures r.Some? ==> 0.0 < r.value < 1.0
    ensures r.Some? ==> (r.value == 0.4 <==> netMedia == "high")
  {
    if netMedia == "low" then Some(0.1)
    else if netMedia == "high" then Some(0.4)
    else None
  }

  /** The state a new agent is in before its first status update: the sampled
      social opinion, the social uncertainty U_s, uninformed, no timer. The
      decision placeholder is never read: `_update_status` only tests it for
      ADOPTION. */
  function Fresh(p: Params, socOp0: real): (r: AgentState)
    ensures r.socOp == socOp0 && r.socU == p.uS
    ensures !r.info && r.ind.None? && r.yesRd.None? && r.decision != Adoption
  {
    AgentState(socOp0, p.uS, false, None, 0.0, 0.0, No, NotConcerned, None)
  }

  /** A new agent is settled and uninformed, so it is either not concerned or
      asking for information, depending only on its social interval. */
  lemma FreshAgentUndecided(p: Params, socOp0: real)
    ensures var st := StatusUpdate(Fresh(p, socOp0), 0, p.rho);
            && Settled(st)
            && (st.decision == NotConcerned || st.decision == InfoRequest)
            && (p.uS >= 0.0 ==> (st.decision == NotConcerned <==> socOp0 + p.uS < 0.0))
  {
    StatusUpdateSettles(Fresh(p, socOp0), 0, p.rho);
  }

  /** What discussion reads of an agent in the given state. */
  function StateView(st: AgentState): View
  {
    View(st.socOp, st.socU, st.info, st.decision)
  }

  /** Whether the media draw u reaches the agent: below the setting's
      probability, and never when the setting has none. */
  function MediaHit(netMedia: string, u: real): (r: bool)
    ensures r ==> netMedia == "low" || netMedia == "high"
    ensures netMedia == "low" ==> (r <==> u < 0.1)
    ensures netMedia == "high" ==> (r <==> u < 0.4)
  {
    var p := MediaProbability(netMedia);
    p.Some? && u < p.value
  }

  /** The state after `receive_info_media`: a hit informs only an agent that
      asked for information and is not informed yet, with the sampled benefit,
      and updates its status. */
  function MediaReceive(st: AgentState, hit: bool, benefit: real, t: nat, p: Params): (r: AgentState)
    ensures !(hit && !st.info && st.decision == InfoRequest) ==> r == st
    ensures hit && !st.info && st.decision == InfoRequest ==>
              r.info && r.ind == Some(Individual(benefit, p.uI)) && r.socOp == st.socOp && r.socU == st.socU
  {
    if hit && !st.info && st.decision == InfoRequest
    then StatusUpdate(Inform(st, benefit, p.uI), t, p.rho)
    else st
  }

  /** The state after `update`: the buffered deltas committed, information
      handed over in discussion taken (with the sampled benefit), the status
      recomputed. */
  function Settle(st: AgentState, inbox: Inbox, benefit: real, t: nat, p: Params): (r: AgentState)
    ensures r.socOp == st.socOp + inbox.opDelta && r.socU == st.socU + inbox.uDelta
    ensures r.info == (st.info || inbox.flag)
    ensures st.decision == Adoption ==> r.decision == Adoption
  {
    StatusUpdate(Absorbed(st, inbox, benefit, p), t, p.rho)
  }

  /** The state before the status update: deltas committed, and informed if
      information was handed over. */
  function Absorbed(st: AgentState, inbox: Inbox, benefit: real, p: Params): (r: AgentState)
    ensures r.socOp == st.socOp + inbox.opDelta && r.socU == st.socU + inbox.uDelta
    ensures r.info == (st.info || inbox.flag)
    ensures r.ind == (if inbox.flag then Some(Individual(benefit, p.uI)) else st.ind)
    ensures r.decision == st.decision && r.yesRd == st.yesRd
  {
    var committed := Commit(st, inbox.opDelta, inbox.uDelta);
    if inbox.flag then Inform(committed, benefit, p.uI) else committed
  }

  /** The media phase keeps an agent settled; it leaves every agent alone except
      an agent asking for information that the draw hits, which becomes
      informed and then either rejects or starts to consider adoption. */
  lemma MediaReceiveEffect(st: AgentState, hit: bool, benefit: real, t: nat, p: Params)
    requires Settled(st)
    ensures var r := MediaReceive(st, hit, benefit, t, p);
            && Settled(r)
            && (!(hit && st.decision == InfoRequest) ==> r == st)
            && (hit && st.decision == InfoRequest ==> r.info && r.decision in {NoAdoption, PreAdoption})
  {
    if hit && st.decision == InfoRequest {
      InformLeavesInfoRequest(st, benefit, p.uI, t, p.rho);
      StatusUpdateSettles(Inform(st, benefit, p.uI), t, p.rho);
    }
  }

  /** The update phase keeps an agent settled, keeps it informed once it is and
      informs it exactly when a discussion handed information over; an
      adopter stays an adopter whatever its buffers hold. */
  lemma SettleEffect(st: AgentState, inbox: Inbox, benefit: real, t: nat, p: Params)
    requires Settled(st)
    ensures var r := Settle(st, inbox, benefit, t, p);
            && Settled(r)
            && (r.info <==> st.info || inbox.flag)
            && (st.decision == Adoption ==> r.decision == Adoption)
            && r.socOp == st.socOp + inbox.opDelta && r.socU == st.socU + inbox.uDelta
  {
    var committed := Commit(st, inbox.opDelta, inbox.uDelta);
    assert Shaped(committed);
    StatusUpdateSettles(if inbox.flag then Inform(committed, benefit, p.uI) else committed, t, p.rho);
  }

  class Agent {
    const params: Params
    var net: seq<Agent>
    var isExtrem: bool
    /** The origination steps this agent has to propagate in the current round. */
    var t0RdQueue: seq<nat>
    /** The origination steps received in this round, for the next one. */
    var t0RdQueueNew: seq<nat>
    /** Set when a neighbour handed information over in this round. */
    var getInfoDiscussion: bool
    /** The step in which the current PRE_ADOPTION began. */
    var yesRd: Option<nat>
    var socOp: real
    var socU: real
    var socOpDelta: real
    var socUDelta: real
    var ind: Option<Individual>
    var info: bool
    var gloOp: real
    var gloU: real
    var interest: Interest
    var decision: Decision

    /** The fields the status update reads and writes. */
    function Snapshot(): AgentState
      reads this
    {
      AgentState(socOp, socU, info, ind, gloOp, gloU, interest, decision, yesRd)
    }

    /** The buffers other agents write during discussion. */
    function InboxOf(): Inbox
      reads this
    {
      Inbox(socOpDelta, socUDelta, getInfoDiscussion, t0RdQueueNew)
    }

    /** What discussion reads of this agent. */
    function AsView(): View
      reads this
    {
      StateView(Snapshot())
    }

    predicate Valid()
      reads this
    {
      Settled(Snapshot())
    }

    /** No discussion changes are pending. */
    predicate Quiescent()
      reads this
    {
      socOpDelta == 0.0 && socUDelta == 0.0 && !getInfoDiscussion && t0RdQueueNew == []
    }

    /** `Agent(args)` with the sampled social opinion `socOp0`. */
    constructor (params: Params, socOp0: real)
      ensures this.params == params
      ensures Snapshot() == StatusUpdate(Fresh(params, socOp0), 0, params.rho)
      ensures Valid() && Quiescent()
      ensures net == [] && !isExtrem && t0RdQueue == []
    {
      this.params := params;
      net := [];
      isExtrem := false;
      t0RdQueue := [];
      t0RdQueueNew := [];
      getInfoDiscussion := false;
      yesRd := None;
      socOp := socOp0;
      socU := params.uS;
      socOpDelta := 0.0;
      socUDelta := 0.0;
      ind := None;
      info := false;
      gloOp := 0.0;
      gloU := 0.0;
      interest := No;
      decision := NotConcerned;
      new;
      UpdateStatus(0);
      StatusUpdateSettles(Fresh(params, socOp0), 0, params.rho);
    }

    /** `_update_status(timestep)`. */
    method UpdateStatus(t: nat)
      modifies this
      ensures Snapshot() == StatusUpdate(old(Snapshot()), t, params.rho)
      ensures net == old(net) && isExtrem == old(isExtrem) && t0RdQueue == old(t0RdQueue)
      ensures InboxOf() == old(InboxOf())
    {
      if decision == Adoption {
        return;
      }
      UpdateInterest();
      UpdateDecision(t);
    }

    /** The first half of `_update_status`: the global view and the interest. */
    method UpdateInterest()
      modifies this
      ensures Snapshot() == Reassess(old(Snapshot()))
      ensures net == old(net) && isExtrem == old(isExtrem) && t0RdQueue == old(t0RdQueue)
      ensures InboxOf() == old(InboxOf())
    {
      match ind {
        case None =>
          gloOp := socOp;
          gloU := socU;
        case Some(i) =>
          gloOp := (socOp + i.benefit) / 2.0;
          gloU := (socU + i.u) / 2.0;
      }

      if gloOp + gloU < 0.0 {
        interest := No;
        yesRd := None;
      } else if gloOp - gloU > 0.0 {
        interest := Yes;
      } else {
        interest := Maybe;
        yesRd := None;
      }
    }

    /** The second half of `_update_status`: the decision. */
    method UpdateDecision(t: nat)
      modifies this
      ensures Snapshot() == Decide(old(Snapshot()), t, params.rho)
      ensures net == old(net) && isExtrem == old(isExtrem) && t0RdQueue == old(t0RdQueue)
      ensures InboxOf() == old(InboxOf())
    {
      if !info {
        if interest == Maybe || interest == Yes {
          decision := InfoRequest;
        } else {
          decision := NotConcerned;
        }
      } else {
        if interest == Maybe || interest == No {
          decision := NoAdoption;
          yesRd := None;
        } else {
          if yesRd.Some? && t - yesRd.value >= params.rho {
            decision := Adoption;
          } else {
            decision := PreAdoption;
            if yesRd.None? {
              yesRd := Some(t);
            }
          }
        }
      }
    }

    /** `_get_info_and_evaluate_benefit()` with the sampled benefit. */
    method GetInfo(benefit: real)
      modifies this
      ensures Snapshot() == Inform(old(Snapshot()), benefit, params.uI)
      ensures net == old(net) && isExtrem == old(isExtrem) && t0RdQueue == old(t0RdQueue)
      ensures InboxOf() == old(InboxOf())
    {
      info := true;
      ind := Some(Individual(benefit, params.uI));
    }

    /** `receive_info_media(timestep)`: the media draw hits when the uniform
        sample u is below the setting's probability; a hit informs an agent
        that asked for information and queues the step for discussion. `ok` is
        false, and nothing changes, when the setting has no probability. */
    method ReceiveInfoMedia(t: nat, u: real, benefit: real) returns (ok: bool)
      modifies this
      ensures ok <==> MediaProbability(params.netMedia).Some?
      ensures net == old(net) && isExtrem == old(isExtrem) && InboxOf() == old(InboxOf())
      ensures Snapshot() == MediaReceive(old(Snapshot()), MediaHit(params.netMedia, u), benefit, t, params)
      ensures t0RdQueue == old(t0RdQueue) + (if MediaHit(params.netMedia, u) then [t] else [])
      ensures old(Valid()) ==> Valid()
    {
      var p := MediaProbability(params.netMedia);
      if p.None? {
        return false;
      }
      ok := true;
      if u < p.value {
        if !info && decision == InfoRequest {
          ghost var st := Snapshot();
          GetInfo(benefit);
          UpdateStatus(t);
          StatusUpdateSettles(Inform(st, benefit, params.uI), t, params.rho);
        }
        t0RdQueue := t0RdQueue + [t];
      }
    }

    /** The fields discussion never writes, of speaker or listener. */
    ghost function Fixed(): (AgentState, seq<Agent>, bool, seq<nat>)
      reads this
    {
      (Snapshot(), net, isExtrem, t0RdQueue)
    }

    /** `discuss(timestep)`: every queued origination step reaches
        round(|net| * proportion) neighbours, chosen by pick; each exchange adds
        the speaker's pull to the neighbour's deltas, may hand information over
        when talk is below omega, and queues the step with the neighbour. The
        speaker's own state is only read, and its queue ends empty. */
    method Discuss(t: nat, pick: (nat, nat) -> nat, talk: (nat, nat) -> real)
      requires this !in net
      modifies this, net
      ensures t0RdQueue == []
      ensures Snapshot() == old(Snapshot()) && InboxOf() == old(InboxOf())
      ensures net == old(net) && isExtrem == old(isExtrem)
      ensures forall a :: a in old(net) ==> a.Fixed() == old(a.Fixed())
      ensures forall a :: a in old(net) ==>
                a.InboxOf() == Receive(old(a.InboxOf()), old(AsView()), old(a.AsView()),
                                       ToPeer(AllSends(params, old(t0RdQueue), |net|, t, pick, talk, |old(t0RdQueue)|), net, a),
                                       params.mu)
    {
      ghost var q0 := t0RdQueue;
      var k: nat := 0;
      while t0RdQueue != []
        invariant k <= |q0| && t0RdQueue == q0[k..]
        invariant Snapshot() == old(Snapshot()) && InboxOf() == old(InboxOf())
        invariant net == old(net) && isExtrem == old(isExtrem)
        invariant forall a :: a in net ==> a.Fixed() == old(a.Fixed())
        invariant forall a :: a in net ==>
                    a.InboxOf() == Receive(old(a.InboxOf()), old(AsView()), old(a.AsView()),
                                           ToPeer(AllSends(params, q0, |net|, t, pick, talk, k), net, a), params.mu)
        decreases |t0RdQueue|
      {
        var t0 := t0RdQueue[0];
        t0RdQueue := t0RdQueue[1..];
        var proportion := Proportion(params.gamma, t, t0);
        var n := NumToDiscuss(|net|, proportion);
        if n != 0 {
          DiscussEntry(k, t0, n, pick, talk);
        }
        ghost var before := AllSends(params, q0, |net|, t, pick, talk, k);
        ghost var entry := EntrySends(k, t0, n, |net|, pick, talk, params.omega);
        assert AllSends(params, q0, |net|, t, pick, talk, k + 1) == before + entry;
        forall a | a in net
          ensures a.InboxOf() == Receive(old(a.InboxOf()), old(AsView()), old(a.AsView()),
                                         ToPeer(before + entry, net, a), params.mu)
        {
          ToPeerAppend(before, entry, net, a);
          ReceiveAppend(old(a.InboxOf()), old(AsView()), old(a.AsView()),
                        ToPeer(before, net, a), ToPeer(entry, net, a), params.mu);
        }
        k := k + 1;
      }
      assert k == |q0|;
      ghost var all := AllSends(params, q0, |net|, t, pick, talk, k);
      assert forall a :: a in old(net) ==>
               a.InboxOf() == Receive(old(a.InboxOf()), old(AsView()), old(a.AsView()), ToPeer(all, net, a), params.mu);
    }

    /** The inner loop of `discuss` for the k-th queue entry, originated at t0:
        n exchanges, the j-th with neighbour pick(k, j). */
    method DiscussEntry(k: nat, t0: nat, n: nat, pick: (nat, nat) -> nat, talk: (nat, nat) -> real)
      requires this !in net && |net| > 0
      modifies net
      ensures forall a :: a in net ==> a.Fixed() == old(a.Fixed())
      ensures forall a :: a in net ==>
                a.InboxOf() == Receive(old(a.InboxOf()), AsView(), old(a.AsView()),
                                       ToPeer(EntrySends(k, t0, n, |net|, pick, talk, params.omega), net, a),
                                       params.mu)
    {
      var chosen := EntrySends(k, t0, n, |net|, pick, talk, params.omega);
      Broadcast(net, AsView(), params.mu, chosen);
    }

    /** `for ag in chosen_ags`: a speaker with view s sends each message in
        turn to the neighbour it names. */
    static method Broadcast(net: seq<Agent>, s: View, mu: real, sends: seq<Send>)
      requires Targets(sends, |net|)
      modifies net
      ensures forall a :: a in net ==> a.Fixed() == old(a.Fixed())
      ensures forall a :: a in net ==>
                a.InboxOf() == Receive(old(a.InboxOf()), s, old(a.AsView()), ToPeer(sends, net, a), mu)
    {
      assert sends[..0] == [];
      var j := 0;
      while j < |sends|
        invariant j <= |sends|
        invariant Targets(sends[..j], |net|)
        invariant forall a :: a in net ==> a.Fixed() == old(a.Fixed())
        invariant forall a :: a in net ==>
                    a.InboxOf() == Receive(old(a.InboxOf()), s, old(a.AsView()), ToPeer(sends[..j], net, a), mu)
      {
        var d := sends[j];
        var ag := net[d.target];
        label L:
        DiscussOne(s, ag, d, mu);
        TakeSnoc(sends, j);
        ToPeerSnocTargets(sends[..j], d, |net|);
        forall a | a in net
          ensures a.InboxOf() == Receive(old(a.InboxOf()), s, old(a.AsView()), ToPeer(sends[..j + 1], net, a), mu)
        {
          assert a.AsView() == old(a.AsView());
          DiscussStep(old@L(a.InboxOf()), a.InboxOf(), old(a.InboxOf()), s, old(a.AsView()),
                      sends[..j], d, net, a, ag, mu);
        }
        j := j + 1;
      }
      assert sends[..j] == sends;
    }

    /** One exchange of `discuss`: a speaker with view s speaks to `ag`. */
    static method DiscussOne(s: View, ag: Agent, d: Send, mu: real)
      modifies ag
      ensures ag.InboxOf() == Exchange(old(ag.InboxOf()), s, ag.AsView(), d, mu)
      ensures ag.Fixed() == old(ag.Fixed())
    {
      var (dOp, dU) := Influence(s, ag.AsView(), mu);
      ag.socOpDelta := ag.socOpDelta + dOp;
      ag.socUDelta := ag.socUDelta + dU;
      if s.info && (!ag.info && ag.decision == InfoRequest) {
        if d.hit {
          ag.getInfoDiscussion := true;
        }
      }
      ag.t0RdQueueNew := ag.t0RdQueueNew + [d.t0];
    }

    /** `update(timestep)`: commits the discussion deltas, swaps the queues,
        takes over information handed over in discussion (with the sampled
        benefit) and recomputes the status. */
    method Update(t: nat, benefit: real)
      modifies this
      ensures Snapshot() == Settle(old(Snapshot()), old(InboxOf()), benefit, t, params)
      ensures t0RdQueue == old(t0RdQueueNew) && Quiescent()
      ensures net == old(net) && isExtrem == old(isExtrem)
      ensures old(Valid()) ==> Valid()
    {
      ghost var st0 := Snapshot();
      Absorb(benefit);
      if Shaped(st0) {
        StatusUpdateSettles(Snapshot(), t, params.rho);
      }
      UpdateStatus(t);
    }

    /** The part of `update` before the status update. */
    method Absorb(benefit: real)
      modifies this
      ensures Snapshot() == Absorbed(old(Snapshot()), old(InboxOf()), benefit, params)
      ensures t0RdQueue == old(t0RdQueueNew) && Quiescent()
      ensures net == old(net) && isExtrem == old(isExtrem)
    {
      CommitDeltas();
      TakeOverInfo(benefit);
    }

    /** Commits the discussion deltas and swaps the queues. */
    method CommitDeltas()
      modifies this
      ensures Snapshot() == Commit(old(Snapshot()), old(socOpDelta), old(socUDelta))
      ensures InboxOf() == Inbox(0.0, 0.0, old(getInfoDiscussion), [])
      ensures t0RdQueue == old(t0RdQueueNew) && net == old(net) && isExtrem == old(isExtrem)
    {
      socOp := socOp + socOpDelta;
      socU := socU + socUDelta;
      socOpDelta := 0.0;
      socUDelta := 0.0;
      t0RdQueue := t0RdQueueNew;
      t0RdQueueNew := [];
    }

    /** Takes over information handed over in discussion. */
    method TakeOverInfo(benefit: real)
      modifies this
      ensures Snapshot() == if old(getInfoDiscussion) then Inform(old(Snapshot()), benefit, params.uI) else old(Snapshot())
      ensures InboxOf() == old(InboxOf()).(flag := false)
      ensures t0RdQueue == old(t0RdQueue) && net == old(net) && isExtrem == old(isExtrem)
    {
      if getInfoDiscussion {
        GetInfo(benefit);
        getInfoDiscussion := false;
      }
    }

    /** The extremist adjustment of `init_ags` on a new agent: marks it, sets
        its social uncertainty to U_s_ex and updates it at step 0. */
    method MakeExtremist()
      requires Quiescent()
      modifies this
      ensures isExtrem && net == old(net) && Quiescent() && t0RdQueue == []
      ensures Snapshot() == StatusUpdate(old(Snapshot()).(socU := params.uSEx), 0, params.rho)
      ensures old(Valid()) ==> Valid()
    {
      isExtrem := true;
      socU := params.uSEx;
      Update(0, 0.0);
    }
  }

  /** Appending one message to a stream adds it to exactly the stream of the
      listener it is addressed to. */
  lemma ToPeerSnoc(ds: seq<Send>, d: Send, net: seq<Agent>, a: Agent)
    requires Targets(ds, |net|) && d.target < |net|
    ensures Targets(ds + [d], |net|)
    ensures ToPeer(ds + [d], net, a) == ToPeer(ds, net, a) + (if net[d.target] == a then [d] else [])
  {
    assert (ds + [d])[..|ds + [d]| - 1] == ds;
  }

  /** One exchange of the inner discussion loop, seen from any listener a:
      only the addressed listener's buffers change, by one exchange. */
  lemma DiscussStep(before: Inbox, after: Inbox, inbox0: Inbox, s: View, p: View,
                    ds: seq<Send>, d: Send, net: seq<Agent>, a: Agent, ag: Agent, mu: real)
    requires Targets(ds, |net|) && d.target < |net| && net[d.target] == ag
    requires before == Receive(inbox0, s, p, ToPeer(ds, net, a), mu)
    requires a == ag ==> after == Exchange(before, s, p, d, mu)
    requires a != ag ==> after == before
    ensures Targets(ds + [d], |net|)
    ensures after == Receive(inbox0, s, p, ToPeer(ds + [d], net, a), mu)
  {
    ToPeerSnoc(ds, d, net, a);
    if a == ag {
      assert ToPeer(ds + [d], net, a) == ToPeer(ds, net, a) + [d];
      ReceiveSnoc(inbox0, s, p, ToPeer(ds, net, a), d, mu);
    } else {
      assert ToPeer(ds + [d], net, a) == ToPeer(ds, net, a);
    }
  }

  lemma TakeSnoc<T>(s: seq<T>, j: nat)
    requires j < |s|
    ensures s[..j + 1] == s[..j] + [s[j]]
  {
  }

  lemma ToPeerSnocTargets(ds: seq<Send>, d: Send, netSize: nat)
    requires Targets(ds, netSize) && d.target < netSize
    ensures Targets(ds + [d], netSize)
  {
  }

  lemma ReceiveSnoc(inbox: Inbox, s: View, p: View, ds: seq<Send>, d: Send, mu: real)
    ensures Receive(inbox, s, p, ds + [d], mu) == Exchange(Receive(inbox, s, p, ds, mu), s, p, d, mu)
  {
    assert (ds + [d])[..|ds + [d]| - 1] == ds;
  }
}
