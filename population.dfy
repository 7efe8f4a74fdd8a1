/** The simulation: the agents, the history of their social opinions, the
    three-phase time step and the run over all steps. Random outcomes are
    passed in as arguments. */
module Population {
  import opened Common
  import opened Config
  import opened Status
  import opened Discussion
  import opened Agents
  import opened Network
  import opened Sampling

  /** Why `init_ags` raises: more extremists than agents (IndexError), a
      network/media setting without a tie count (unbound `n_edges`), or a tie
      drawn from fewer than two agents (ValueError of `choice`). */
  datatype InitError = ExtremistIndexOutOfRange | UnknownNetMedia | SampleLargerThanPopulation

  /** Why `get_randint` fails: a negative array size (ValueError of `zeros`),
      the excluded index outside the marker array (IndexError), or the draws
      ran out before enough values were accepted (the loop would go on
      drawing). */
  datatype RandintError = NegativeDimensions | IndexOutOfBounds | DrawsExhausted

  /** `get_result` divides by N. */
  datatype ResultError = DivisionByZero

  /** The three ratios `get_result` returns. */
  datatype Outcome = Outcome(informed: real, adopters: real, notConcerned: real)

  /** The outcomes of every random draw of the time steps, by step t, agent i,
      queue entry k and exchange j: the media uniform sample, the benefit
      sampled on information from the media, the neighbour drawn, the
      transmission uniform sample, and the benefit sampled on information from
      a discussion. */
  datatype Draws = Draws(
    media: (nat, nat) -> real,
    mediaBenefit: (nat, nat) -> real,
    pick: (nat, nat, nat, nat) -> nat,
    talk: (nat, nat, nat, nat) -> real,
    talkBenefit: (nat, nat) -> real)

  /** The social opinions of a list of agents. */
  function OpsOf(s: seq<Agent>): (r: seq<real>)
    reads s
    ensures |r| == |s| && forall i :: 0 <= i < |s| ==> r[i] == s[i].socOp
  {
    if s == [] then [] else OpsOf(s[..|s| - 1]) + [s[|s| - 1].socOp]
  }

  /** The first n sampled social opinions. */
  function Opinions(f: nat -> real, n: nat): (r: seq<real>)
    ensures |r| == n && forall i :: 0 <= i < n ==> r[i] == f(i)
  {
    if n == 0 then [] else Opinions(f, n - 1) + [f(n - 1)]
  }

  /** The agents a list of indices stands for. */
  function NetOf(s: seq<Agent>, idx: seq<nat>): (r: seq<Agent>)
    requires forall k :: 0 <= k < |idx| ==> idx[k] < |s|
    ensures |r| == |idx| && forall k :: 0 <= k < |idx| ==> r[k] == s[idx[k]]
  {
    seq(|idx|, k requires 0 <= k < |idx| => s[idx[k]])
  }

  predicate DistinctAgents(s: seq<Agent>)
  {
    forall i, j :: 0 <= i < |s| && 0 <= j < |s| && i != j ==> s[i] != s[j]
  }

  /** `pos` maps every agent to its index, so the agents are distinct. */
  ghost predicate Positions(s: seq<Agent>, pos: map<Agent, nat>)
  {
    forall i :: 0 <= i < |s| ==> s[i] in pos && pos[s[i]] == i
  }

  lemma PositionsDistinct(s: seq<Agent>, pos: map<Agent, nat>)
    requires Positions(s, pos)
    ensures DistinctAgents(s)
  {
  }

  /** The index map of a sequence of distinct agents. */
  ghost function PositionsOf(s: seq<Agent>): (pos: map<Agent, nat>)
    requires DistinctAgents(s)
    ensures Positions(s, pos)
  {
    map i | 0 <= i < |s| :: s[i] := i
  }

  function CountInformed(s: seq<Agent>): (r: nat)
    reads s
    ensures r <= |s|
  {
    if s == [] then 0 else CountInformed(s[..|s| - 1]) + (if s[|s| - 1].info then 1 else 0)
  }

  function CountDecision(s: seq<Agent>, d: Decision): (r: nat)
    reads s
    ensures r <= |s|
  {
    if s == [] then 0 else CountDecision(s[..|s| - 1], d) + (if s[|s| - 1].decision == d then 1 else 0)
  }

  /** Every agent is in exactly one of the five decisions. */
  lemma {:induction false} DecisionsPartition(s: seq<Agent>)
    ensures CountDecision(s, NotConcerned) + CountDecision(s, InfoRequest) + CountDecision(s, NoAdoption)
            + CountDecision(s, PreAdoption) + CountDecision(s, Adoption) == |s|
  {
    if s != [] {
      DecisionsPartition(s[..|s| - 1]);
    }
  }

  /** Among valid agents, the informed ones are exactly those in NO_ADOPTION,
      PRE_ADOPTION or ADOPTION. */
  lemma {:induction false} InformedAreDeciding(s: seq<Agent>)
    requires forall a :: a in s ==> a.Valid()
    ensures CountInformed(s) ==
            CountDecision(s, NoAdoption) + CountDecision(s, PreAdoption) + CountDecision(s, Adoption)
  {
    if s != [] {
      InformedAreDeciding(s[..|s| - 1]);
      assert s[|s| - 1] in s;
    }
  }

  function States(s: seq<Agent>): (r: seq<AgentState>)
    reads s
    ensures |r| == |s| && forall i :: 0 <= i < |s| ==> r[i] == s[i].Snapshot()
  {
    seq(|s|, i requires 0 <= i < |s| reads s => s[i].Snapshot())
  }

  function Queues(s: seq<Agent>): (r: seq<seq<nat>>)
    reads s
    ensures |r| == |s| && forall i :: 0 <= i < |s| ==> r[i] == s[i].t0RdQueue
  {
    seq(|s|, i requires 0 <= i < |s| reads s => s[i].t0RdQueue)
  }

  function Nets(s: seq<Agent>): (r: seq<seq<Agent>>)
    reads s
    ensures |r| == |s| && forall i :: 0 <= i < |s| ==> r[i] == s[i].net
  {
    seq(|s|, i requires 0 <= i < |s| reads s => s[i].net)
  }

  lemma NetsSame(ags: seq<Agent>, nets: seq<seq<Agent>>)
    requires |nets| == |ags| && forall i :: 0 <= i < |ags| ==> ags[i].net == nets[i]
    ensures Nets(ags) == nets
  {
  }

  lemma ExtremsSame(ags: seq<Agent>, exs: seq<bool>)
    requires |exs| == |ags| && forall i :: 0 <= i < |ags| ==> ags[i].isExtrem == exs[i]
    ensures Extrems(ags) == exs
  {
  }

  /** Each agent's net lies within the population and omits the agent. */
  predicate NetsWithin(ags: seq<Agent>, nets: seq<seq<Agent>>)
  {
    && |nets| == |ags|
    && forall i :: 0 <= i < |ags| ==> ags[i] !in nets[i] && forall b :: b in nets[i] ==> b in ags
  }

  /** Every agent is settled with no pending change. */
  predicate Ready(ags: seq<Agent>)
    reads ags
  {
    forall i :: 0 <= i < |ags| ==> ags[i].Valid() && ags[i].Quiescent()
  }

  function Extrems(s: seq<Agent>): (r: seq<bool>)
    reads s
    ensures |r| == |s| && forall i :: 0 <= i < |s| ==> r[i] == s[i].isExtrem
  {
    seq(|s|, i requires 0 <= i < |s| reads s => s[i].isExtrem)
  }

  function Inboxes(s: seq<Agent>): (r: seq<Inbox>)
    reads s
    ensures |r| == |s| && forall i :: 0 <= i < |s| ==> r[i] == s[i].InboxOf()
  {
    seq(|s|, i requires 0 <= i < |s| reads s => s[i].InboxOf())
  }

  function StateViews(sts: seq<AgentState>): (r: seq<View>)
    ensures |r| == |sts| && forall i :: 0 <= i < |sts| ==> r[i] == StateView(sts[i])
  {
    if sts == [] then [] else StateViews(sts[..|sts| - 1]) + [StateView(sts[|sts| - 1])]
  }

  // ---------------------------------------------------------------------------
  // One time step as values.

  /** The neighbour draws of agent i at step t. */
  function PickOf(draws: Draws, t: nat, i: nat): (nat, nat) -> nat
  {
    (k: nat, j: nat) => draws.pick(t, i, k, j)
  }

  /** The transmission draws of agent i at step t. */
  function TalkOf(draws: Draws, t: nat, i: nat): (nat, nat) -> real
  {
    (k: nat, j: nat) => draws.talk(t, i, k, j)
  }

  /** The media hit of agent i at step t. */
  function HitOf(p: Params, draws: Draws, t: nat, i: nat): bool
  {
    MediaHit(p.netMedia, draws.media(t, i))
  }

  /** The states after the media phase of step t. */
  function MediaStates(p: Params, t: nat, draws: Draws, sts: seq<AgentState>): (r: seq<AgentState>)
    ensures |r| == |sts|
  {
    if sts == [] then []
    else
      var i := |sts| - 1;
      MediaStates(p, t, draws, sts[..i]) + [MediaReceive(sts[i], HitOf(p, draws, t, i), draws.mediaBenefit(t, i), t, p)]
  }

  /** Agent i's state after the media phase is its own media reception. */
  lemma {:induction false} MediaStatesAt(p: Params, t: nat, draws: Draws, sts: seq<AgentState>, i: nat)
    requires i < |sts|
    ensures MediaStates(p, t, draws, sts)[i] == MediaReceive(sts[i], HitOf(p, draws, t, i), draws.mediaBenefit(t, i), t, p)
  {
    if i < |sts| - 1 {
      MediaStatesAt(p, t, draws, sts[..|sts| - 1], i);
    }
  }

  /** The queues after the media phase of step t: each hit queues t. */
  function MediaQueues(p: Params, t: nat, draws: Draws, qs: seq<seq<nat>>): (r: seq<seq<nat>>)
    ensures |r| == |qs|
    ensures forall i :: 0 <= i < |qs| ==> r[i] == qs[i] + (if HitOf(p, draws, t, i) then [t] else [])
  {
    if qs == [] then []
    else
      var i := |qs| - 1;
      MediaQueues(p, t, draws, qs[..i]) + [qs[i] + (if HitOf(p, draws, t, i) then [t] else [])]
  }

  /** The messages agent i sends in the discussion phase of step t. */
  function SpeakerSends(p: Params, t: nat, draws: Draws, i: nat, queue: seq<nat>, netSize: nat): (r: seq<Send>)
    ensures Targets(r, netSize)
  {
    AllSends(p, queue, netSize, t, PickOf(draws, t, i), TalkOf(draws, t, i), |queue|)
  }

  /** The messages of every agent in the discussion phase of step t. */
  function AllSpeakerSends(p: Params, t: nat, draws: Draws, qs: seq<seq<nat>>, nets: seq<seq<Agent>>): (r: seq<seq<Send>>)
    requires |qs| == |nets|
    ensures |r| == |qs| && Addressed(r, nets)
    ensures forall i :: 0 <= i < |qs| ==> r[i] == SpeakerSends(p, t, draws, i, qs[i], |nets[i]|)
  {
    seq(|qs|, i requires 0 <= i < |qs| => SpeakerSends(p, t, draws, i, qs[i], |nets[i]|))
  }

  /** Every agent's messages address members of its own net. */
  predicate Addressed(sends: seq<seq<Send>>, nets: seq<seq<Agent>>)
  {
    |sends| == |nets| && forall i :: 0 <= i < |nets| ==> Targets(sends[i], |nets[i]|)
  }

  /** Listener a's buffers (a's view being `view`) after the first c agents of
      the population have discussed, in order, with the given views, messages
      and nets. */
  function Heard(mu: real, views: seq<View>, sends: seq<seq<Send>>, nets: seq<seq<Agent>>,
                 a: Agent, view: View, inbox: Inbox, c: nat): Inbox
    requires c <= |views| && |views| == |nets| && Addressed(sends, nets)
  {
    if c == 0 then inbox
    else
      Receive(Heard(mu, views, sends, nets, a, view, inbox, c - 1), views[c - 1], view,
              ToPeer(sends[c - 1], nets[c - 1], a), mu)
  }

  /** The buffers every agent starts the discussion phase with. */
  const NoInbox := Inbox(0.0, 0.0, false, [])

  /** Agent x's state and queue after the discussion and update phases of
      step t, from the states, queues and nets the media phase left: x commits
      what all agents, in order, addressed to it. */
  function Talked(p: Params, t: nat, draws: Draws, sts: seq<AgentState>, qs: seq<seq<nat>>,
                  nets: seq<seq<Agent>>, ags: seq<Agent>, x: nat): (AgentState, seq<nat>)
    requires |sts| == |ags| && |qs| == |ags| && |nets| == |ags| && x < |ags|
  {
    var heard := Heard(p.mu, StateViews(sts), AllSpeakerSends(p, t, draws, qs, nets), nets,
                       ags[x], StateView(sts[x]), NoInbox, |ags|);
    (Settle(sts[x], heard, draws.talkBenefit(t, x), t, p), heard.queueNew)
  }

  /** Agent x's state and queue after step t from the given states, queues and
      nets: media, then discussion of all agents, then update. */
  function Stepped(p: Params, t: nat, draws: Draws, sts: seq<AgentState>, qs: seq<seq<nat>>,
                   nets: seq<seq<Agent>>, ags: seq<Agent>, x: nat): (AgentState, seq<nat>)
    requires |sts| == |ags| && |qs| == |ags| && |nets| == |ags| && x < |ags|
  {
    Talked(p, t, draws, MediaStates(p, t, draws, sts), MediaQueues(p, t, draws, qs), nets, ags, x)
  }

  /** Discussion hands information over only from informed speakers: when no
      speaker is informed, no listener's flag is raised. */
  lemma {:induction false} HeardUninformed(mu: real, views: seq<View>, sends: seq<seq<Send>>, nets: seq<seq<Agent>>,
                                           a: Agent, view: View, inbox: Inbox, c: nat)
    requires c <= |views| && |views| == |nets| && Addressed(sends, nets)
    requires forall i :: 0 <= i < c ==> !views[i].info
    ensures Heard(mu, views, sends, nets, a, view, inbox, c).flag == inbox.flag
  {
    if c > 0 {
      HeardUninformed(mu, views, sends, nets, a, view, inbox, c - 1);
      ReceiveUninformed(Heard(mu, views, sends, nets, a, view, inbox, c - 1), views[c - 1], view,
                        ToPeer(sends[c - 1], nets[c - 1], a), mu);
    }
  }

  /** A listener in nobody's net hears nothing. */
  lemma {:induction false} HeardOutsideNets(mu: real, views: seq<View>, sends: seq<seq<Send>>, nets: seq<seq<Agent>>,
                                            a: Agent, view: View, inbox: Inbox, c: nat)
    requires c <= |views| && |views| == |nets| && Addressed(sends, nets)
    requires forall i :: 0 <= i < c ==> a !in nets[i]
    ensures Heard(mu, views, sends, nets, a, view, inbox, c) == inbox
  {
    if c > 0 {
      HeardOutsideNets(mu, views, sends, nets, a, view, inbox, c - 1);
      ToPeerAbsent(sends[c - 1], nets[c - 1], a);
    }
  }

  lemma {:induction false} ToPeerAbsent(ds: seq<Send>, net: seq<Agent>, a: Agent)
    requires Targets(ds, |net|) && a !in net
    ensures ToPeer(ds, net, a) == []
  {
    if ds != [] {
      ToPeerAbsent(ds[..|ds| - 1], net, a);
    }
  }

  /** A step keeps every agent settled, keeps informed agents informed and keeps
      adopters adopters. */
  lemma StepKeepsStatus(p: Params, t: nat, draws: Draws, sts: seq<AgentState>, qs: seq<seq<nat>>,
                        nets: seq<seq<Agent>>, ags: seq<Agent>, x: nat)
    requires |sts| == |ags| && |qs| == |ags| && |nets| == |ags| && x < |ags|
    requires Settled(sts[x])
    ensures var r := Stepped(p, t, draws, sts, qs, nets, ags, x).0;
            && Settled(r)
            && (sts[x].info ==> r.info)
            && (sts[x].decision == Adoption ==> r.decision == Adoption)
  {
    var sts1 := MediaStates(p, t, draws, sts);
    MediaStatesAt(p, t, draws, sts, x);
    MediaReceiveEffect(sts[x], HitOf(p, draws, t, x), draws.mediaBenefit(t, x), t, p);
    var heard := Heard(p.mu, StateViews(sts1), AllSpeakerSends(p, t, draws, MediaQueues(p, t, draws, qs), nets), nets,
                       ags[x], StateView(sts1[x]), NoInbox, |ags|);
    SettleEffect(sts1[x], heard, draws.talkBenefit(t, x), t, p);
  }

  /** When nobody is informed after the media phase, nobody is informed after
      the step: discussion alone never creates information. */
  lemma StepNeedsInformedSpeaker(p: Params, t: nat, draws: Draws, sts: seq<AgentState>, qs: seq<seq<nat>>,
                                 nets: seq<seq<Agent>>, ags: seq<Agent>, x: nat)
    requires |sts| == |ags| && |qs| == |ags| && |nets| == |ags| && x < |ags|
    requires forall i :: 0 <= i < |ags| ==> !MediaStates(p, t, draws, sts)[i].info
    ensures !Stepped(p, t, draws, sts, qs, nets, ags, x).0.info
  {
    var sts1 := MediaStates(p, t, draws, sts);
    var views := StateViews(sts1);
    HeardUninformed(p.mu, views, AllSpeakerSends(p, t, draws, MediaQueues(p, t, draws, qs), nets), nets,
                    ags[x], StateView(sts1[x]), NoInbox, |ags|);
  }

  /** The population after the first i discussion turns of a phase that
      started from states `sts`, extremist flags `exs`, queues `qs`, nets
      `nets` and buffers `inbox0`: states, flags and nets are as they were,
      the first i queues are empty, and every agent has heard what the first i
      speakers addressed to it. */
  ghost predicate Discussed(ags: seq<Agent>, i: nat, mu: real, sts: seq<AgentState>, exs: seq<bool>, views: seq<View>,
                            qs: seq<seq<nat>>, nets: seq<seq<Agent>>, sends: seq<seq<Send>>, inbox0: seq<Inbox>)
    reads ags
  {
    && i <= |ags|
    && forall x :: 0 <= x < |ags| ==>
         && |sts| == |ags| && |exs| == |ags| && |views| == |ags| && |qs| == |ags| && |inbox0| == |ags|
         && NetsWithin(ags, nets) && Addressed(sends, nets)
         && ags[x].Snapshot() == sts[x] && ags[x].net == nets[x] && ags[x].isExtrem == exs[x]
         && ags[x].t0RdQueue == (if x < i then [] else qs[x])
         && ags[x].InboxOf() == Heard(mu, views, sends, nets, ags[x], views[x], inbox0[x], i)
  }

  /** Every agent holds the state and queue `Stepped` gives it for step t
      from states `sts`, queues `qs`, nets `nets` and roles `exs`; its net and
      role are those it had, and it neither forgets the innovation nor drops
      an adoption. */
  ghost predicate SteppedFrom(p: Params, t: nat, draws: Draws, ags: seq<Agent>, sts: seq<AgentState>,
                              qs: seq<seq<nat>>, nets: seq<seq<Agent>>, exs: seq<bool>)
    reads ags
  {
    && |sts| == |ags| && |qs| == |ags| && |nets| == |ags| && |exs| == |ags|
    && (forall x {:trigger Stepped(p, t, draws, sts, qs, nets, ags, x)} :: 0 <= x < |ags| ==>
          (ags[x].Snapshot(), ags[x].t0RdQueue) == Stepped(p, t, draws, sts, qs, nets, ags, x))
    && forall x :: 0 <= x < |ags| ==>
         && ags[x].net == nets[x] && ags[x].isExtrem == exs[x]
         && (sts[x].info ==> ags[x].info)
         && (sts[x].decision == Adoption ==> ags[x].decision == Adoption)
  }

  /** The states after step t, from the states and queues before it. */
  function StepStates(p: Params, t: nat, draws: Draws, sts: seq<AgentState>, qs: seq<seq<nat>>,
                      nets: seq<seq<Agent>>, ags: seq<Agent>): (r: seq<AgentState>)
    requires |sts| == |ags| && |qs| == |ags| && |nets| == |ags|
    ensures |r| == |ags| && forall x :: 0 <= x < |ags| ==> r[x] == Stepped(p, t, draws, sts, qs, nets, ags, x).0
  {
    seq(|ags|, x requires 0 <= x < |ags| => Stepped(p, t, draws, sts, qs, nets, ags, x).0)
  }

  /** The queues after step t, from the states and queues before it. */
  function StepQueues(p: Params, t: nat, draws: Draws, sts: seq<AgentState>, qs: seq<seq<nat>>,
                      nets: seq<seq<Agent>>, ags: seq<Agent>): (r: seq<seq<nat>>)
    requires |sts| == |ags| && |qs| == |ags| && |nets| == |ags|
    ensures |r| == |ags| && forall x :: 0 <= x < |ags| ==> r[x] == Stepped(p, t, draws, sts, qs, nets, ags, x).1
  {
    seq(|ags|, x requires 0 <= x < |ags| => Stepped(p, t, draws, sts, qs, nets, ags, x).1)
  }

  /** The states and queues after steps 1 to k, from those before step 1; the
      nets do not change between steps. */
  function Run(p: Params, draws: Draws, sts: seq<AgentState>, qs: seq<seq<nat>>,
               nets: seq<seq<Agent>>, ags: seq<Agent>, k: nat): (r: (seq<AgentState>, seq<seq<nat>>))
    requires |sts| == |ags| && |qs| == |ags| && |nets| == |ags|
    ensures |r.0| == |ags| && |r.1| == |ags|
  {
    if k == 0 then (sts, qs)
    else
      var prev := Run(p, draws, sts, qs, nets, ags, k - 1);
      (StepStates(p, k, draws, prev.0, prev.1, nets, ags), StepQueues(p, k, draws, prev.0, prev.1, nets, ags))
  }

  /** The social opinions of a list of states. */
  function SocOps(sts: seq<AgentState>): (r: seq<real>)
    ensures |r| == |sts| && forall i :: 0 <= i < |sts| ==> r[i] == sts[i].socOp
  {
    seq(|sts|, i requires 0 <= i < |sts| => sts[i].socOp)
  }

  /** The history rows that steps 1 to k append: row k - 1 holds the social
      opinions after step k. */
  function History(p: Params, draws: Draws, sts: seq<AgentState>, qs: seq<seq<nat>>,
                   nets: seq<seq<Agent>>, ags: seq<Agent>, k: nat): (r: seq<seq<real>>)
    requires |sts| == |ags| && |qs| == |ags| && |nets| == |ags|
    ensures |r| == k
  {
    if k == 0 then [] else History(p, draws, sts, qs, nets, ags, k - 1) + [SocOps(Run(p, draws, sts, qs, nets, ags, k).0)]
  }

  /** Row j of the history of k steps is the opinions after step j + 1. */
  lemma {:induction false} HistoryAt(p: Params, draws: Draws, sts: seq<AgentState>, qs: seq<seq<nat>>,
                                     nets: seq<seq<Agent>>, ags: seq<Agent>, k: nat, j: nat)
    requires |sts| == |ags| && |qs| == |ags| && |nets| == |ags| && j < k
    ensures History(p, draws, sts, qs, nets, ags, k)[j] == SocOps(Run(p, draws, sts, qs, nets, ags, j + 1).0)
  {
    var prev := History(p, draws, sts, qs, nets, ags, k - 1);
    assert History(p, draws, sts, qs, nets, ags, k) == prev + [SocOps(Run(p, draws, sts, qs, nets, ags, k).0)];
    if j < k - 1 {
      HistoryAt(p, draws, sts, qs, nets, ags, k - 1, j);
    }
  }

  /** One more step of a run: when the states and queues after step k are
      those the run gives, and the history holds its first k rows, then the
      states and queues after step t = k + 1 are those the run gives, and
      the history with the opinions after step t appended holds its first t
      rows. */
  lemma RunStep(p: Params, draws: Draws, sts0: seq<AgentState>, qs0: seq<seq<nat>>, nets0: seq<seq<Agent>>,
                ags: seq<Agent>, k: nat, t: nat, sts: seq<AgentState>, qs: seq<seq<nat>>,
                sts1: seq<AgentState>, qs1: seq<seq<nat>>, pre: seq<seq<real>>, h0: seq<seq<real>>, h: seq<seq<real>>)
    requires t == k + 1 && |sts0| == |ags| && |qs0| == |ags| && |nets0| == |ags| && |sts| == |ags| && |qs| == |ags|
    requires (sts, qs) == Run(p, draws, sts0, qs0, nets0, ags, k)
    requires sts1 == StepStates(p, t, draws, sts, qs, nets0, ags) && qs1 == StepQueues(p, t, draws, sts, qs, nets0, ags)
    requires h0 == pre + History(p, draws, sts0, qs0, nets0, ags, k)
    requires h == h0 + [SocOps(sts1)]
    ensures (sts1, qs1) == Run(p, draws, sts0, qs0, nets0, ags, t)
    ensures h == pre + History(p, draws, sts0, qs0, nets0, ags, t)
  {
    assert History(p, draws, sts0, qs0, nets0, ags, t) == History(p, draws, sts0, qs0, nets0, ags, k) + [SocOps(sts1)];
    assert (pre + History(p, draws, sts0, qs0, nets0, ags, k)) + [SocOps(sts1)]
           == pre + (History(p, draws, sts0, qs0, nets0, ags, k) + [SocOps(sts1)]);
  }

  /** A run keeps every agent settled, keeps informed agents informed and
      keeps adopters adopters. */
  lemma RunKeepsStatus(p: Params, draws: Draws, sts: seq<AgentState>, qs: seq<seq<nat>>,
                       nets: seq<seq<Agent>>, ags: seq<Agent>, k: nat, x: nat)
    requires |sts| == |ags| && |qs| == |ags| && |nets| == |ags| && x < |ags| && Settled(sts[x])
    ensures Kept(sts[x], Run(p, draws, sts, qs, nets, ags, k).0[x])
  {
    var j := 0;
    while j < k
      invariant j <= k && Kept(sts[x], Run(p, draws, sts, qs, nets, ags, j).0[x])
    {
      RunStepKeepsStatus(p, draws, sts, qs, nets, ags, j, x);
      j := j + 1;
    }
    assert j == k;
  }

  /** One more step of a run keeps what the run kept so far. */
  lemma RunStepKeepsStatus(p: Params, draws: Draws, sts: seq<AgentState>, qs: seq<seq<nat>>,
                           nets: seq<seq<Agent>>, ags: seq<Agent>, k: nat, x: nat)
    requires |sts| == |ags| && |qs| == |ags| && |nets| == |ags| && x < |ags|
    requires Kept(sts[x], Run(p, draws, sts, qs, nets, ags, k).0[x])
    ensures Kept(sts[x], Run(p, draws, sts, qs, nets, ags, k + 1).0[x])
  {
    var prev := Run(p, draws, sts, qs, nets, ags, k);
    StepStatesKeepStatus(p, k + 1, draws, prev.0, prev.1, nets, ags, x);
  }

  /** State b keeps what state a had: b is settled, and neither the innovation
      nor an adoption of a is lost. */
  predicate Kept(a: AgentState, b: AgentState)
  {
    && Settled(b)
    && (a.info ==> b.info)
    && (a.decision == Adoption ==> b.decision == Adoption)
  }

  /** A step keeps what each agent had, stated on `StepStates`. */
  lemma StepStatesKeepStatus(p: Params, t: nat, draws: Draws, sts: seq<AgentState>, qs: seq<seq<nat>>,
                             nets: seq<seq<Agent>>, ags: seq<Agent>, x: nat)
    requires |sts| == |ags| && |qs| == |ags| && |nets| == |ags| && x < |ags| && Settled(sts[x])
    ensures Kept(sts[x], StepStates(p, t, draws, sts, qs, nets, ags)[x])
  {
    StepKeepsStatus(p, t, draws, sts, qs, nets, ags, x);
  }

  /** Agents that hold what `Stepped` gives them hold the states and queues of
      `StepStates` and `StepQueues`. */
  lemma SteppedStates(p: Params, t: nat, draws: Draws, ags: seq<Agent>, sts: seq<AgentState>,
                      qs: seq<seq<nat>>, nets: seq<seq<Agent>>, exs: seq<bool>)
    requires SteppedFrom(p, t, draws, ags, sts, qs, nets, exs)
    ensures States(ags) == StepStates(p, t, draws, sts, qs, nets, ags)
    ensures Queues(ags) == StepQueues(p, t, draws, sts, qs, nets, ags)
  {
  }

  /** The opinions of the agents are the opinions of their states. */
  lemma OpsOfStates(ags: seq<Agent>)
    ensures OpsOf(ags) == SocOps(States(ags))
  {
  }

  class InnovationDiffusion {
    const params: Params
    var ags: seq<Agent>
    /** One row of social opinions per recorded step. */
    var socOpDis: seq<seq<real>>
    /** The index of every agent in `ags`. */
    ghost var pos: map<Agent, nat>

    /** The structure every step keeps: N distinct agents sharing the
        parameters, nets within the population and without self-ties, a
        setting with a media probability, and a history whose rows all have
        one opinion per agent. */
    ghost predicate Wired()
      reads this, ags
    {
      && |ags| == NumAgents(params.n)
      && Positions(ags, pos)
      && MediaProbability(params.netMedia).Some?
      && (forall i :: 0 <= i < |ags| ==> ags[i].params == params)
      && NetsWithin(ags, Nets(ags))
      && |socOpDis| >= 1
      && (forall k :: 0 <= k < |socOpDis| ==> |socOpDis[k]| == |ags|)
    }

    /** Between steps, moreover, every agent is settled with no pending change. */
    ghost predicate Valid()
      reads this, ags
    {
      Wired() && Ready(ags)
    }

    /** `InnovationDiffusion(args, rnd_seed)` with the sampled opinions and ties. */
    static method Create(params: Params, socOp: nat -> real, edge: nat -> (nat, nat))
      returns (r: Result<InnovationDiffusion, InitError>)
      ensures r.Success? ==> fresh(r.value) && r.value.Valid() && r.value.params == params
      ensures r.Success? ==> r.value.socOpDis == [OpsOf(r.value.ags)]
      ensures r.Success? ==> forall i :: 0 <= i < |r.value.ags| ==> r.value.ags[i].socOp == socOp(i)
      ensures r.Success? ==> NumEdges(params.netMedia, params.n).Some? && Built(params, socOp, edge, r.value.ags)
      ensures r.Failure? <==> InitFails(params)
    {
      var init := InitAgs(params, socOp, edge);
      if init.Failure? {
        return Failure(init.error);
      }
      BuiltReady(params, socOp, edge, init.value);
      var sim := new InnovationDiffusion.FromAgents(params, init.value);
      return Success(sim);
    }

    /** The agents `init_ags` returns are settled with no pending change, and
        every tie joins two distinct agents of the population. */
    static lemma BuiltReady(params: Params, socOp: nat -> real, edge: nat -> (nat, nat), ags: seq<Agent>)
      requires NumEdges(params.netMedia, params.n).Some? && Built(params, socOp, edge, ags)
      ensures Ready(ags) && NetsWithin(ags, Nets(ags))
      ensures forall i :: 0 <= i < |ags| ==> ags[i].params == params && ags[i].socOp == socOp(i)
    {
      var m := NumEdges(params.netMedia, params.n).value;
      forall i | 0 <= i < |ags|
        ensures && ags[i].params == params && ags[i].socOp == socOp(i) && ags[i].Valid() && ags[i].Quiescent()
                && ags[i] !in ags[i].net && forall b :: b in ags[i].net ==> b in ags
      {
        var ties := Ties(edge, |ags|, m, i);
        assert ags[i].net == NetOf(ags, ties);
        forall k | 0 <= k < |ties|
          ensures ags[i].net[k] != ags[i] && ags[i].net[k] in ags
        {
          assert ties[k] != i;
        }
      }
    }

    /** `round(N * ratio_ex)`, the number of extremists. */
    static function NumExtremists(p: Params): int
    {
      RoundHalfEven(p.n as real * p.ratioEx)
    }

    /** The error `init_ags` raises, if any, in the order the code meets them. */
    static function InitFailure(p: Params): (r: Option<InitError>)
      ensures r == Some(ExtremistIndexOutOfRange) <==>
                p.ratioEx != 0.0 && NumExtremists(p) > NumAgents(p.n)
      ensures r.None? ==> NumEdges(p.netMedia, p.n).Some?
      ensures r.None? <==> !(p.ratioEx != 0.0 && NumExtremists(p) > NumAgents(p.n))
                           && NumEdges(p.netMedia, p.n).Some?
                           && (NumAgents(p.n) >= 2 || NumEdges(p.netMedia, p.n) == Some(0))
    {
      if p.ratioEx != 0.0 && NumExtremists(p) > NumAgents(p.n) then Some(ExtremistIndexOutOfRange)
      else if NumEdges(p.netMedia, p.n).None? then Some(UnknownNetMedia)
      else if NumAgents(p.n) < 2 && NumEdges(p.netMedia, p.n).value > 0 then Some(SampleLargerThanPopulation)
      else None
    }

    static predicate InitFails(p: Params)
    {
      InitFailure(p).Some?
    }

    /** Exactly one agent (N = 1) makes the first tie fail; none or two and more
        never do. */
    static lemma OnlyOneAgentCannotTie(p: Params)
      requires NumEdges(p.netMedia, p.n).Some?
      requires InitFailure(p) != Some(ExtremistIndexOutOfRange)
      ensures InitFailure(p) == Some(SampleLargerThanPopulation) <==> p.n == 1
    {
    }

    constructor FromAgents(params: Params, ags: seq<Agent>)
      requires |ags| == NumAgents(params.n) && DistinctAgents(ags)
      requires MediaProbability(params.netMedia).Some?
      requires (forall i :: 0 <= i < |ags| ==> ags[i].params == params) && Ready(ags)
      requires NetsWithin(ags, Nets(ags))
      ensures this.params == params && this.ags == ags
      ensures socOpDis == [OpsOf(ags)]
      ensures Valid()
    {
      var ops := OpsOf(ags);
      this.params := params;
      this.ags := ags;
      pos := PositionsOf(ags);
      socOpDis := [ops];
    }

    /** The agents of `init_ags` apart from their nets: N agents with the
        sampled opinions socOp(i); if ratio_ex is not 0, the round(N * ratio_ex)
        agents first in a stable descending sort by opinion are extremists,
        with uncertainty U_s_ex and updated once more at step 0. */
    static ghost predicate Populated(params: Params, socOp: nat -> real, ags: seq<Agent>)
      reads ags
    {
      && |ags| == NumAgents(params.n) && DistinctAgents(ags)
      && BuiltStates(params, socOp, ags, States(ags), Inboxes(ags), Extrems(ags))
    }

    /** `Populated` on the agents' states, inboxes and extremist flags. */
    static predicate BuiltStates(params: Params, socOp: nat -> real, ags: seq<Agent>,
                                 sts: seq<AgentState>, inbs: seq<Inbox>, exs: seq<bool>)
    {
      forall i :: 0 <= i < |ags| ==>
        && |sts| == |ags| && |inbs| == |ags| && |exs| == |ags|
        && ags[i].params == params
        && exs[i] == (params.ratioEx != 0.0 && Rank(Opinions(socOp, |ags|), i) < NumExtremists(params))
        && AgentBuilt(params, socOp(i), exs[i], sts[i], inbs[i])
    }

    /** The state of one agent `init_ags` returns: settled, no pending change,
        its opinion the sampled one, and its status as updated at creation and,
        for an extremist, updated again with uncertainty U_s_ex. */
    static predicate AgentBuilt(params: Params, op: real, extrem: bool, st: AgentState, inbox: Inbox)
    {
      && Settled(st) && inbox == Inbox(0.0, 0.0, false, []) && st.socOp == op
      && st == (var st0 := StatusUpdate(Fresh(params, op), 0, params.rho);
                if extrem then StatusUpdate(st0.(socU := params.uSEx), 0, params.rho) else st0)
    }

    /** The agents `init_ags` returns: populated, and agent i's net holds the
        agents of the ties drawn from it, in order. */
    static ghost predicate Built(params: Params, socOp: nat -> real, edge: nat -> (nat, nat), ags: seq<Agent>)
      requires NumEdges(params.netMedia, params.n).Some?
      reads ags
    {
      && Populated(params, socOp, ags)
      && (forall i :: 0 <= i < |ags| ==>
            ags[i].net == NetOf(ags, Ties(edge, |ags|, NumEdges(params.netMedia, params.n).value, i)))
    }

    /** `init_ags()`, with the sampled opinions socOp(i) and the tie draws
        edge(e); its error cases are those of `InitFailure`. */
    static method InitAgs(params: Params, socOp: nat -> real, edge: nat -> (nat, nat))
      returns (r: Result<seq<Agent>, InitError>)
      ensures r.Failure? <==> InitFails(params)
      ensures r.Failure? ==> r.error == InitFailure(params).value
      ensures r.Success? ==> Built(params, socOp, edge, r.value) && forall a :: a in r.value ==> fresh(a)
    {
      var n := NumAgents(params.n);
      var ags := NewAgents(params, socOp);
      var ok := SetExtremists(params, socOp, ags);
      if !ok {
        assert InitFailure(params) == Some(ExtremistIndexOutOfRange);
        return Failure(ExtremistIndexOutOfRange);
      }

      var nEdges := NumEdges(params.netMedia, params.n);
      if nEdges.None? {
        return Failure(UnknownNetMedia);
      }
      if nEdges.value > 0 {
        if n < 2 {
          return Failure(SampleLargerThanPopulation);
        }
        AddTies(params, socOp, ags, edge, nEdges.value);
      } else {
        assert |ags| == 0;
      }
      r := Success(ags);
    }

    /** The N calls `Agent(args)` of `init_ags`. */
    static method NewAgents(params: Params, socOp: nat -> real) returns (ags: seq<Agent>)
      ensures |ags| == NumAgents(params.n) && DistinctAgents(ags)
      ensures forall k :: 0 <= k < |ags| ==>
                fresh(ags[k]) && ags[k].params == params && ags[k].Valid() && ags[k].Quiescent()
                && ags[k].net == [] && !ags[k].isExtrem && ags[k].socOp == socOp(k)
                && ags[k].Snapshot() == StatusUpdate(Fresh(params, socOp(k)), 0, params.rho)
    {
      var n := NumAgents(params.n);
      ags := [];
      var i := 0;
      while i < n
        invariant i <= n && |ags| == i && DistinctAgents(ags)
        invariant forall k :: 0 <= k < i ==>
                    fresh(ags[k]) && ags[k].params == params && ags[k].Valid() && ags[k].Quiescent()
                    && ags[k].net == [] && !ags[k].isExtrem && ags[k].socOp == socOp(k)
                    && ags[k].Snapshot() == StatusUpdate(Fresh(params, socOp(k)), 0, params.rho)
      {
        var a := new Agent(params, socOp(i));
        ags := ags + [a];
        i := i + 1;
      }
    }

    /** The tie block of `init_ags` on populated agents without ties. */
    static method AddTies(params: Params, socOp: nat -> real, ags: seq<Agent>, edge: nat -> (nat, nat), m: nat)
      requires |ags| >= 2 && NumEdges(params.netMedia, params.n) == Some(m)
      requires Populated(params, socOp, ags) && forall a :: a in ags ==> a.net == []
      modifies ags
      ensures Built(params, socOp, edge, ags)
    {
      assert forall i :: 0 <= i < |ags| ==> ags[i].net == [];
      TieLoop(ags, edge, m);
    }

    /** The tie loop of `init_ags`: the e-th tie, e < m, adds agent v to agent
        u's net for (u, v) = EdgePair(edge(e), N). */
    static method TieLoop(ags: seq<Agent>, edge: nat -> (nat, nat), m: nat)
      requires |ags| >= 2 && DistinctAgents(ags)
      modifies ags
      ensures forall i :: 0 <= i < |ags| ==>
                && ags[i].net == old(ags[i].net) + NetOf(ags, EdgeTargets(edge, |ags|, m, i))
                && ags[i].Snapshot() == old(ags[i].Snapshot()) && ags[i].InboxOf() == old(ags[i].InboxOf())
                && ags[i].isExtrem == old(ags[i].isExtrem) && ags[i].t0RdQueue == old(ags[i].t0RdQueue)
      ensures States(ags) == old(States(ags)) && Inboxes(ags) == old(Inboxes(ags)) && Extrems(ags) == old(Extrems(ags))
    {
      var n := |ags|;
      var e := 0;
      while e < m
        invariant e <= m
        invariant forall i :: 0 <= i < n ==>
                    && ags[i].net == old(ags[i].net) + NetOf(ags, EdgeTargets(edge, n, e, i))
                    && ags[i].Snapshot() == old(ags[i].Snapshot()) && ags[i].InboxOf() == old(ags[i].InboxOf())
                    && ags[i].isExtrem == old(ags[i].isExtrem) && ags[i].t0RdQueue == old(ags[i].t0RdQueue)
      {
        var (u, v) := EdgePair(edge(e), n);
        label L:
        AddTie(ags, u, v);
        forall i | 0 <= i < n
          ensures ags[i].net == old(ags[i].net) + NetOf(ags, EdgeTargets(edge, n, e + 1, i))
        {
          TieStep(ags, edge, e, i, old(ags[i].net), old@L(ags[i].net), ags[i].net);
        }
        e := e + 1;
      }
      assert e == m;
      assert States(ags) == old(States(ags));
      assert Inboxes(ags) == old(Inboxes(ags));
      assert Extrems(ags) == old(Extrems(ags));
    }

    /** Agent v joins agent u's net; nothing else changes. */
    static method AddTie(ags: seq<Agent>, u: nat, v: nat)
      requires u < |ags| && v < |ags| && DistinctAgents(ags)
      modifies ags[u]
      ensures forall i :: 0 <= i < |ags| ==>
                && ags[i].net == old(ags[i].net) + (if i == u then [ags[v]] else [])
                && ags[i].Snapshot() == old(ags[i].Snapshot()) && ags[i].InboxOf() == old(ags[i].InboxOf())
                && ags[i].isExtrem == old(ags[i].isExtrem) && ags[i].t0RdQueue == old(ags[i].t0RdQueue)
    {
      ags[u].net := ags[u].net + [ags[v]];
    }

    /** The net of agent i after the tie e, from its net before it. */
    static lemma TieStep(ags: seq<Agent>, edge: nat -> (nat, nat), e: nat, i: nat,
                         net0: seq<Agent>, before: seq<Agent>, after: seq<Agent>)
      requires |ags| >= 2 && i < |ags|
      requires before == net0 + NetOf(ags, EdgeTargets(edge, |ags|, e, i))
      requires after == before + (if i == EdgePair(edge(e), |ags|).0 then [ags[EdgePair(edge(e), |ags|).1]] else [])
      ensures after == net0 + NetOf(ags, EdgeTargets(edge, |ags|, e + 1, i))
    {
      var (u, v) := EdgePair(edge(e), |ags|);
      if i == u {
        assert EdgeTargets(edge, |ags|, e + 1, i) == EdgeTargets(edge, |ags|, e, i) + [v];
        assert NetOf(ags, EdgeTargets(edge, |ags|, e + 1, i)) == NetOf(ags, EdgeTargets(edge, |ags|, e, i)) + [ags[v]];
      } else {
        assert EdgeTargets(edge, |ags|, e + 1, i) == EdgeTargets(edge, |ags|, e, i);
      }
    }

    /** The extremist block of `init_ags`: if ratio_ex is not 0, the agents
        of rank below round(N * ratio_ex) become extremists; `ok` is false
        when that count exceeds N (the sorted list is indexed past its end). */
    static method SetExtremists(params: Params, socOp: nat -> real, ags: seq<Agent>) returns (ok: bool)
      requires |ags| == NumAgents(params.n) && DistinctAgents(ags)
      requires forall k :: 0 <= k < |ags| ==>
                 ags[k].params == params && ags[k].Valid() && ags[k].Quiescent()
                 && ags[k].net == [] && !ags[k].isExtrem && ags[k].socOp == socOp(k)
                 && ags[k].Snapshot() == StatusUpdate(Fresh(params, socOp(k)), 0, params.rho)
      modifies ags
      ensures ok <==> !(params.ratioEx != 0.0 && NumExtremists(params) > NumAgents(params.n))
      ensures ok ==> Populated(params, socOp, ags) && forall a :: a in ags ==> a.net == []
    {
      if params.ratioEx == 0.0 {
        return true;
      }
      var nEx := NumExtremists(params);
      if nEx > |ags| {
        return false;
      }
      assert OpsOf(ags) == Opinions(socOp, |ags|);
      MarkExtremists(ags, nEx);
      assert forall k :: 0 <= k < |ags| ==> ags[k] in ags;
      ok := true;
    }

    /** The extremist loop of `init_ags`: the agents whose rank is below nEx. */
    static method MarkExtremists(ags: seq<Agent>, nEx: int)
      requires DistinctAgents(ags)
      requires forall a :: a in ags ==> a.Quiescent() && !a.isExtrem
      modifies ags
      ensures forall i :: 0 <= i < |ags| ==> ags[i].isExtrem == (Rank(old(OpsOf(ags)), i) < nEx)
      ensures OpsOf(ags) == old(OpsOf(ags))
      ensures forall a :: a in ags ==>
                a.Quiescent() && a.net == old(a.net) && (old(a.Valid()) ==> a.Valid())
                && a.Snapshot() == (if a.isExtrem then StatusUpdate(old(a.Snapshot()).(socU := a.params.uSEx), 0, a.params.rho)
                                    else old(a.Snapshot()))
    {
      var ops := OpsOf(ags);
      var i := 0;
      while i < |ags|
        invariant i <= |ags|
        invariant forall k :: 0 <= k < |ags| ==> ags[k].socOp == ops[k]
        invariant forall k :: 0 <= k < |ags| ==>
                    ags[k].isExtrem == (k < i && Rank(ops, k) < nEx)
        invariant forall a :: a in ags ==>
                    a.Quiescent() && a.net == old(a.net) && (old(a.Valid()) ==> a.Valid())
                    && a.Snapshot() == (if a.isExtrem then StatusUpdate(old(a.Snapshot()).(socU := a.params.uSEx), 0, a.params.rho)
                                        else old(a.Snapshot()))
      {
        if Rank(ops, i) < nEx {
          ags[i].MakeExtremist();
        }
        i := i + 1;
      }
      assert OpsOf(ags) == ops;
    }

    // -------------------------------------------------------------------------
    // The time step.

    /** The first phase of `simulate_step`: every agent, in order, receives
        information from the media. */
    static method MediaPhase(p: Params, ags: seq<Agent>, t: nat, draws: Draws, ghost pos: map<Agent, nat>)
      requires Positions(ags, pos) && forall x :: 0 <= x < |ags| ==> ags[x].params == p
      modifies ags
      ensures forall x :: 0 <= x < |ags| ==>
                ags[x].Snapshot() == MediaReceive(old(ags[x].Snapshot()), HitOf(p, draws, t, x), draws.mediaBenefit(t, x), t, p)
      ensures forall x :: 0 <= x < |ags| ==>
                ags[x].t0RdQueue == old(ags[x].t0RdQueue) + (if HitOf(p, draws, t, x) then [t] else [])
      ensures forall x :: 0 <= x < |ags| ==> ags[x].InboxOf() == old(ags[x].InboxOf())
      ensures forall x :: 0 <= x < |ags| ==> ags[x].net == old(ags[x].net)
      ensures forall x :: 0 <= x < |ags| ==> ags[x].isExtrem == old(ags[x].isExtrem)
    {
      var i := 0;
      while i < |ags|
        invariant i <= |ags|
        invariant forall k {:trigger ags[k].net} :: 0 <= k < |ags| ==> ags[k].net == old(ags[k].net)
        invariant forall k {:trigger ags[k].isExtrem} :: 0 <= k < |ags| ==> ags[k].isExtrem == old(ags[k].isExtrem)
        invariant forall k {:trigger ags[k].InboxOf()} :: 0 <= k < |ags| ==> ags[k].InboxOf() == old(ags[k].InboxOf())
        invariant forall k {:trigger ags[k].Snapshot()} :: 0 <= k < i ==>
                    ags[k].Snapshot() == MediaReceive(old(ags[k].Snapshot()), HitOf(p, draws, t, k), draws.mediaBenefit(t, k), t, p)
        invariant forall k {:trigger ags[k].t0RdQueue} :: 0 <= k < i ==>
                    ags[k].t0RdQueue == old(ags[k].t0RdQueue) + (if HitOf(p, draws, t, k) then [t] else [])
        invariant forall k {:trigger ags[k].Snapshot()} :: i <= k < |ags| ==> ags[k].Snapshot() == old(ags[k].Snapshot())
        invariant forall k {:trigger ags[k].t0RdQueue} :: i <= k < |ags| ==> ags[k].t0RdQueue == old(ags[k].t0RdQueue)
      {
        assert ags[i] in ags && ags[i].params == p;
        var ok := ags[i].ReceiveInfoMedia(t, draws.media(t, i), draws.mediaBenefit(t, i));
        i := i + 1;
      }
    }

    /** The second phase of `simulate_step`: every agent, in order, discusses
        with its neighbours. Views, nets and statuses stay as they were; every
        queue ends empty and every agent's buffers hold what it heard. */
    static method DiscussPhase(p: Params, ags: seq<Agent>, t: nat, draws: Draws, ghost views: seq<View>, ghost qs: seq<seq<nat>>,
                        ghost nets: seq<seq<Agent>>, ghost sends: seq<seq<Send>>, ghost inbox0: seq<Inbox>,
                        ghost pos: map<Agent, nat>)
      requires Positions(ags, pos) && forall x :: 0 <= x < |ags| ==> ags[x].params == p
      requires |views| == |ags| && |qs| == |ags| && |inbox0| == |ags| && NetsWithin(ags, nets)
      requires forall x :: 0 <= x < |ags| ==> ags[x].AsView() == views[x]
      requires forall x :: 0 <= x < |ags| ==> ags[x].t0RdQueue == qs[x]
      requires forall x :: 0 <= x < |ags| ==> ags[x].net == nets[x]
      requires forall x :: 0 <= x < |ags| ==> ags[x].InboxOf() == inbox0[x]
      requires sends == AllSpeakerSends(p, t, draws, qs, nets)
      modifies ags
      ensures forall x :: 0 <= x < |ags| ==> ags[x].Snapshot() == old(ags[x].Snapshot())
      ensures forall x :: 0 <= x < |ags| ==> ags[x].t0RdQueue == []
      ensures forall x :: 0 <= x < |ags| ==> ags[x].net == old(ags[x].net)
      ensures forall x :: 0 <= x < |ags| ==> ags[x].isExtrem == old(ags[x].isExtrem)
      ensures forall x {:trigger ags[x].InboxOf()} :: 0 <= x < |ags| ==>
                ags[x].InboxOf() == Heard(p.mu, views, sends, nets, ags[x], views[x], inbox0[x], |ags|)
    {
      ghost var sts := States(ags);
      ghost var exs := Extrems(ags);
      assert StateViews(sts) == views;
      DiscussedNone(ags, p.mu, sts, exs, views, qs, nets, sends, inbox0);
      DiscussTurns(p, ags, t, draws, sts, exs, views, qs, nets, sends, inbox0, pos);
      DiscussedAll(ags, p.mu, sts, exs, views, qs, nets, sends, inbox0);
    }

    /** The loop of the discussion phase: the turns of all agents in order. */
    static method DiscussTurns(p: Params, ags: seq<Agent>, t: nat, draws: Draws, ghost sts: seq<AgentState>, ghost exs: seq<bool>,
                               ghost views: seq<View>, ghost qs: seq<seq<nat>>, ghost nets: seq<seq<Agent>>,
                               ghost sends: seq<seq<Send>>, ghost inbox0: seq<Inbox>, ghost pos: map<Agent, nat>)
      requires Positions(ags, pos) && forall x :: 0 <= x < |ags| ==> ags[x].params == p
      requires Discussed(ags, 0, p.mu, sts, exs, views, qs, nets, sends, inbox0)
      requires StateViews(sts) == views && |qs| == |nets| && sends == AllSpeakerSends(p, t, draws, qs, nets)
      modifies ags
      ensures Discussed(ags, |ags|, p.mu, sts, exs, views, qs, nets, sends, inbox0)
    {
      var i := 0;
      while i < |ags|
        invariant Discussed(ags, i, p.mu, sts, exs, views, qs, nets, sends, inbox0)
      {
        DiscussTurn(p, ags, t, draws, i, sts, exs, views, qs, nets, sends, inbox0, pos);
        i := i + 1;
      }
      assert i == |ags|;
    }

    /** Before the first turn nothing has been discussed. */
    static lemma DiscussedNone(ags: seq<Agent>, mu: real, sts: seq<AgentState>, exs: seq<bool>, views: seq<View>,
                               qs: seq<seq<nat>>, nets: seq<seq<Agent>>, sends: seq<seq<Send>>, inbox0: seq<Inbox>)
      requires |views| == |ags| && |qs| == |ags| && |inbox0| == |ags| && NetsWithin(ags, nets) && Addressed(sends, nets)
      requires sts == States(ags) && exs == Extrems(ags)
      requires forall x :: 0 <= x < |ags| ==> ags[x].t0RdQueue == qs[x]
      requires forall x :: 0 <= x < |ags| ==> ags[x].net == nets[x]
      requires forall x :: 0 <= x < |ags| ==> ags[x].InboxOf() == inbox0[x]
      ensures Discussed(ags, 0, mu, sts, exs, views, qs, nets, sends, inbox0)
    {
    }

    /** After the last turn every agent has heard all speakers. */
    static lemma DiscussedAll(ags: seq<Agent>, mu: real, sts: seq<AgentState>, exs: seq<bool>, views: seq<View>,
                              qs: seq<seq<nat>>, nets: seq<seq<Agent>>, sends: seq<seq<Send>>, inbox0: seq<Inbox>)
      requires Discussed(ags, |ags|, mu, sts, exs, views, qs, nets, sends, inbox0)
      ensures forall x :: 0 <= x < |ags| ==>
                && ags[x].Snapshot() == sts[x] && ags[x].t0RdQueue == []
                && ags[x].net == nets[x] && ags[x].isExtrem == exs[x]
      ensures forall x {:trigger ags[x].InboxOf()} :: 0 <= x < |ags| ==>
                ags[x].InboxOf() == Heard(mu, views, sends, nets, ags[x], views[x], inbox0[x], |ags|)
    {
    }

    /** One iteration of the discussion phase: agent i's turn empties its
        queue and extends what every agent has heard by what agent i
        addresses to it. */
    static method DiscussTurn(p: Params, ags: seq<Agent>, t: nat, draws: Draws, i: nat, ghost sts: seq<AgentState>, ghost exs: seq<bool>,
                       ghost views: seq<View>, ghost qs: seq<seq<nat>>, ghost nets: seq<seq<Agent>>,
                       ghost sends: seq<seq<Send>>, ghost inbox0: seq<Inbox>, ghost pos: map<Agent, nat>)
      requires i < |ags| && Positions(ags, pos) && forall x :: 0 <= x < |ags| ==> ags[x].params == p
      requires Discussed(ags, i, p.mu, sts, exs, views, qs, nets, sends, inbox0)
      requires StateViews(sts) == views && |qs| == |nets| && sends == AllSpeakerSends(p, t, draws, qs, nets)
      modifies ags
      ensures Discussed(ags, i + 1, p.mu, sts, exs, views, qs, nets, sends, inbox0)
    {
      PositionsDistinct(ags, pos);
      assert ags[i].AsView() == views[i];
      label L:
      Turn(ags, i, t, PickOf(draws, t, i), TalkOf(draws, t, i));
      forall x | 0 <= x < |ags|
        ensures && ags[x].Snapshot() == sts[x] && ags[x].net == nets[x] && ags[x].isExtrem == exs[x]
                && ags[x].t0RdQueue == (if x < i + 1 then [] else qs[x])
                && ags[x].InboxOf() == Heard(p.mu, views, sends, nets, ags[x], views[x], inbox0[x], i + 1)
      {
        assert old@L(ags[x].AsView()) == views[x];
        assert ags[x].InboxOf() == Receive(old@L(ags[x].InboxOf()), views[i], views[x], ToPeer(sends[i], nets[i], ags[x]), p.mu);
      }
    }

    /** The turn of agent i in the discussion phase: every agent's buffers
        receive what agent i addresses to it; agent i's queue empties and
        nothing else changes. */
    static method Turn(ags: seq<Agent>, i: nat, t: nat, pick: (nat, nat) -> nat, talk: (nat, nat) -> real)
      requires i < |ags| && DistinctAgents(ags)
      requires ags[i] !in ags[i].net && forall b :: b in ags[i].net ==> b in ags
      modifies set b | b in ags
      ensures forall x :: 0 <= x < |ags| ==>
                && ags[x].Snapshot() == old(ags[x].Snapshot())
                && ags[x].net == old(ags[x].net) && ags[x].isExtrem == old(ags[x].isExtrem)
                && ags[x].t0RdQueue == (if x == i then [] else old(ags[x].t0RdQueue))
                && ags[x].InboxOf() ==
                   Receive(old(ags[x].InboxOf()), old(ags[i].AsView()), old(ags[x].AsView()),
                           ToPeer(AllSends(ags[i].params, old(ags[i].t0RdQueue), |ags[i].net|, t, pick, talk, |old(ags[i].t0RdQueue)|),
                                  ags[i].net, ags[x]),
                           ags[i].params.mu)
    {
      var speaker := ags[i];
      assert speaker in ags && forall b :: b in speaker.net ==> b in ags;
      ghost var sends := AllSends(speaker.params, speaker.t0RdQueue, |speaker.net|, t, pick, talk, |speaker.t0RdQueue|);
      speaker.Discuss(t, pick, talk);
      forall x | 0 <= x < |ags|
        ensures ags[x].Snapshot() == old(ags[x].Snapshot())
        ensures ags[x].net == old(ags[x].net) && ags[x].isExtrem == old(ags[x].isExtrem)
        ensures ags[x].t0RdQueue == (if x == i then [] else old(ags[x].t0RdQueue))
        ensures ags[x].InboxOf() ==
                Receive(old(ags[x].InboxOf()), old(speaker.AsView()), old(ags[x].AsView()),
                        ToPeer(sends, speaker.net, ags[x]), speaker.params.mu)
      {
        var a := ags[x];
        if a in old(speaker.net) {
          assert a.Fixed() == old(a.Fixed());
        } else {
          ToPeerAbsent(sends, speaker.net, a);
          assert x != i ==> a != speaker;
        }
      }
    }

    /** The third phase of `simulate_step`: every agent, in order, commits
        what it heard and updates its status, with the sampled benefit. */
    static method UpdatePhase(p: Params, ags: seq<Agent>, t: nat, draws: Draws, ghost pos: map<Agent, nat>)
      requires Positions(ags, pos) && forall x :: 0 <= x < |ags| ==> ags[x].params == p
      modifies ags
      ensures forall x :: 0 <= x < |ags| ==>
                ags[x].Snapshot() == Settle(old(ags[x].Snapshot()), old(ags[x].InboxOf()), draws.talkBenefit(t, x), t, p)
      ensures forall x :: 0 <= x < |ags| ==> ags[x].t0RdQueue == old(ags[x].InboxOf()).queueNew && ags[x].Quiescent()
      ensures forall x :: 0 <= x < |ags| ==> ags[x].net == old(ags[x].net)
      ensures forall x :: 0 <= x < |ags| ==> ags[x].isExtrem == old(ags[x].isExtrem)
    {
      var i := 0;
      while i < |ags|
        invariant i <= |ags|
        invariant forall k {:trigger ags[k].net} :: 0 <= k < |ags| ==> ags[k].net == old(ags[k].net)
        invariant forall k {:trigger ags[k].isExtrem} :: 0 <= k < |ags| ==> ags[k].isExtrem == old(ags[k].isExtrem)
        invariant forall k {:trigger ags[k].Snapshot()} :: 0 <= k < i ==>
                    ags[k].Snapshot() == Settle(old(ags[k].Snapshot()), old(ags[k].InboxOf()), draws.talkBenefit(t, k), t, p)
        invariant forall k {:trigger ags[k].t0RdQueue} :: 0 <= k < i ==>
                    ags[k].t0RdQueue == old(ags[k].InboxOf()).queueNew && ags[k].Quiescent()
        invariant forall k {:trigger ags[k].Snapshot()} :: i <= k < |ags| ==> ags[k].Snapshot() == old(ags[k].Snapshot())
        invariant forall k {:trigger ags[k].InboxOf()} :: i <= k < |ags| ==> ags[k].InboxOf() == old(ags[k].InboxOf())
      {
        assert ags[i] in ags && ags[i].params == p;
        ags[i].Update(t, draws.talkBenefit(t, i));
        i := i + 1;
      }
    }

    /** `update_soc_op_dis()`: appends the current social opinions as a row. */
    method UpdateSocOpDis()
      modifies this
      ensures socOpDis == old(socOpDis) + [OpsOf(ags)] && ags == old(ags) && unchanged(ags)
      ensures old(Valid()) ==> Valid()
      ensures States(ags) == old(States(ags)) && Queues(ags) == old(Queues(ags))
      ensures Nets(ags) == old(Nets(ags)) && Extrems(ags) == old(Extrems(ags))
    {
      socOpDis := socOpDis + [OpsOf(ags)];
    }

    /** The discussion and update phases of `simulate_step` on agents with the
        given states, queues and nets and empty buffers: every agent ends in
        the state and with the queue `Talked` gives it, with no pending
        change. */
    static method TalkAndUpdate(p: Params, ags: seq<Agent>, t: nat, draws: Draws, ghost sts1: seq<AgentState>, ghost qs1: seq<seq<nat>>,
                         ghost nets0: seq<seq<Agent>>, ghost pos: map<Agent, nat>)
      requires Positions(ags, pos) && forall x :: 0 <= x < |ags| ==> ags[x].params == p
      requires |sts1| == |ags| && |qs1| == |ags| && NetsWithin(ags, nets0)
      requires forall x :: 0 <= x < |ags| ==> ags[x].Snapshot() == sts1[x]
      requires forall x :: 0 <= x < |ags| ==> ags[x].t0RdQueue == qs1[x]
      requires forall x :: 0 <= x < |ags| ==> ags[x].net == nets0[x]
      requires forall x :: 0 <= x < |ags| ==> ags[x].InboxOf() == NoInbox
      modifies ags
      ensures forall x :: 0 <= x < |ags| ==>
                (ags[x].Snapshot(), ags[x].t0RdQueue) == Talked(p, t, draws, sts1, qs1, nets0, ags, x)
      ensures forall x :: 0 <= x < |ags| ==> ags[x].Quiescent()
      ensures forall x :: 0 <= x < |ags| ==> ags[x].net == old(ags[x].net)
      ensures forall x :: 0 <= x < |ags| ==> ags[x].isExtrem == old(ags[x].isExtrem)
    {
      ghost var views := StateViews(sts1);
      ghost var inbox0 := seq(|ags|, x => NoInbox);
      ghost var sends := AllSpeakerSends(p, t, draws, qs1, nets0);
      DiscussPhase(p, ags, t, draws, views, qs1, nets0, sends, inbox0, pos);
      UpdatePhase(p, ags, t, draws, pos);
    }

    /** The three phases of `simulate_step` on agents with the given states,
        queues and nets and empty buffers: every agent ends in the state and
        with the queue `Stepped` gives it, with no pending change. */
    static method StepAgents(p: Params, ags: seq<Agent>, t: nat, draws: Draws, ghost sts0: seq<AgentState>, ghost qs0: seq<seq<nat>>,
                      ghost nets0: seq<seq<Agent>>, ghost exs0: seq<bool>, ghost pos: map<Agent, nat>)
      requires Positions(ags, pos) && forall x :: 0 <= x < |ags| ==> ags[x].params == p
      requires States(ags) == sts0 && Queues(ags) == qs0 && Nets(ags) == nets0 && Extrems(ags) == exs0
      requires NetsWithin(ags, nets0) && Ready(ags)
      modifies ags
      ensures Ready(ags) && NetsWithin(ags, Nets(ags))
      ensures forall x :: 0 <= x < |ags| ==>
                && (sts0[x].info ==> ags[x].info)
                && (sts0[x].decision == Adoption ==> ags[x].decision == Adoption)
      ensures States(ags) == StepStates(p, t, draws, sts0, qs0, nets0, ags)
      ensures Queues(ags) == StepQueues(p, t, draws, sts0, qs0, nets0, ags)
      ensures Nets(ags) == nets0 && Extrems(ags) == exs0
    {
      assert forall x :: 0 <= x < |ags| ==> ags[x].Snapshot() == sts0[x] && Settled(sts0[x]);
      assert forall x :: 0 <= x < |ags| ==> ags[x].t0RdQueue == qs0[x];
      assert forall x :: 0 <= x < |ags| ==> ags[x].net == nets0[x] && ags[x].isExtrem == exs0[x];
      assert forall x :: 0 <= x < |ags| ==> ags[x].InboxOf() == NoInbox;
      ghost var sts1 := MediaStates(p, t, draws, sts0);
      ghost var qs1 := MediaQueues(p, t, draws, qs0);
      MediaPhase(p, ags, t, draws, pos);
      forall x | 0 <= x < |ags|
        ensures ags[x].Snapshot() == sts1[x]
      {
        MediaStatesAt(p, t, draws, sts0, x);
      }
      TalkAndUpdate(p, ags, t, draws, sts1, qs1, nets0, pos);
      forall x | 0 <= x < |ags|
        ensures ags[x].Valid() && (sts0[x].info ==> ags[x].info)
        ensures sts0[x].decision == Adoption ==> ags[x].decision == Adoption
      {
        StepKeepsStatus(p, t, draws, sts0, qs0, nets0, ags, x);
      }
      NetsSame(ags, nets0);
      ExtremsSame(ags, exs0);
      SteppedStates(p, t, draws, ags, sts0, qs0, nets0, exs0);
    }

    /** `simulate_step(timestep)` with the draws of that step: every agent's
        new state and queue are those of `Stepped`, one history row is added,
        and the population stays valid. */
    method SimulateStep(t: nat, draws: Draws)
      requires Valid()
      modifies this, ags
      ensures Valid() && ags == old(ags)
      ensures States(ags) == StepStates(params, t, draws, old(States(ags)), old(Queues(ags)), old(Nets(ags)), ags)
      ensures Queues(ags) == StepQueues(params, t, draws, old(States(ags)), old(Queues(ags)), old(Nets(ags)), ags)
      ensures socOpDis == old(socOpDis) + [OpsOf(ags)]
      ensures Nets(ags) == old(Nets(ags)) && Extrems(ags) == old(Extrems(ags))
    {
      Advance(t, draws);
      UpdateSocOpDis();
    }

    /** The three phases of `simulate_step` on the population, before the
        history row is added. */
    method Advance(t: nat, draws: Draws)
      requires Valid()
      modifies ags
      ensures Valid()
      ensures States(ags) == StepStates(params, t, draws, old(States(ags)), old(Queues(ags)), old(Nets(ags)), ags)
      ensures Queues(ags) == StepQueues(params, t, draws, old(States(ags)), old(Queues(ags)), old(Nets(ags)), ags)
      ensures Nets(ags) == old(Nets(ags)) && Extrems(ags) == old(Extrems(ags))
    {
      StepAgents(params, ags, t, draws, States(ags), Queues(ags), Nets(ags), Extrems(ags), pos);
    }

    /** Step t = k + 1 of `simulate()`: the run and its history, as far as
        step k, are extended to step t. */
    method StepOfRun(t: nat, draws: Draws, ghost k: nat, ghost sts0: seq<AgentState>, ghost qs0: seq<seq<nat>>,
                     ghost nets0: seq<seq<Agent>>, ghost h00: seq<seq<real>>)
      requires Valid() && t == k + 1 && |sts0| == |ags| && |qs0| == |ags| && Nets(ags) == nets0
      requires (States(ags), Queues(ags)) == Run(params, draws, sts0, qs0, nets0, ags, k)
      requires socOpDis == h00 + History(params, draws, sts0, qs0, nets0, ags, k)
      modifies this, ags
      ensures Valid() && ags == old(ags) && Nets(ags) == nets0
      ensures Extrems(ags) == old(Extrems(ags))
      ensures (States(ags), Queues(ags)) == Run(params, draws, sts0, qs0, nets0, ags, t)
      ensures socOpDis == h00 + History(params, draws, sts0, qs0, nets0, ags, t)
    {
      ghost var sts, qs, h0 := States(ags), Queues(ags), socOpDis;
      SimulateStep(t, draws);
      OpsOfStates(ags);
      RunStep(params, draws, sts0, qs0, nets0, ags, k, t, sts, qs, States(ags), Queues(ags), h00, h0, socOpDis);
    }

    /** `simulate()`: steps 1 to n_steps, one history row each. */
    method Simulate(draws: Draws)
      requires Valid()
      modifies this, ags
      ensures Valid() && ags == old(ags)
      ensures |socOpDis| == |old(socOpDis)| + NumSteps(params.nSteps) && old(socOpDis) <= socOpDis
      ensures (States(ags), Queues(ags)) ==
              Run(params, draws, old(States(ags)), old(Queues(ags)), old(Nets(ags)), ags, NumSteps(params.nSteps))
      ensures socOpDis ==
              old(socOpDis) + History(params, draws, old(States(ags)), old(Queues(ags)), old(Nets(ags)), ags, NumSteps(params.nSteps))
      ensures forall x :: 0 <= x < |ags| ==>
                && ags[x].net == old(ags[x].net) && ags[x].isExtrem == old(ags[x].isExtrem)
                && (old(ags[x].info) ==> ags[x].info)
                && (old(ags[x].decision) == Adoption ==> ags[x].decision == Adoption)
    {
      ghost var sts0, qs0, nets0, exs0 := States(ags), Queues(ags), Nets(ags), Extrems(ags);
      ghost var n0, h00 := |socOpDis|, socOpDis;
      var t := 1;
      ghost var done: nat := 0;
      while t <= params.nSteps
        invariant Valid() && ags == old(ags)
        invariant 1 <= t <= NumSteps(params.nSteps) + 1 && done == t - 1
        invariant |socOpDis| == n0 + done && old(socOpDis) <= socOpDis
        invariant Nets(ags) == nets0
        invariant (States(ags), Queues(ags)) == Run(params, draws, sts0, qs0, nets0, ags, done)
        invariant socOpDis == h00 + History(params, draws, sts0, qs0, nets0, ags, done)
        invariant Extrems(ags) == exs0
      {
        StepOfRun(t, draws, done, sts0, qs0, nets0, h00);
        done := t;
        t := t + 1;
      }
      assert done == NumSteps(params.nSteps);
      forall x | 0 <= x < |ags|
        ensures (sts0[x].info ==> States(ags)[x].info)
        ensures (sts0[x].decision == Adoption ==> States(ags)[x].decision == Adoption)
      {
        RunKeepsStatus(params, draws, sts0, qs0, nets0, ags, done, x);
      }
    }

    /** `get_result()`: the ratios of informed agents, adopters and agents not
        concerned, each a count divided by N; N = 0 divides by zero. */
    function GetResult(): (r: Result<Outcome, ResultError>)
      reads this, ags
      ensures r.Failure? <==> params.n == 0
      ensures r.Success? ==>
                r.value == Ratios(CountInformed(ags), CountDecision(ags, Adoption), CountDecision(ags, NotConcerned), params.n)
    {
      if params.n == 0 then Failure(DivisionByZero)
      else
        Success(Ratios(CountInformed(ags), CountDecision(ags, Adoption), CountDecision(ags, NotConcerned), params.n))
    }

    /** For a valid population of N > 0 agents every ratio is a fraction, the
        adopters are among the informed, and the informed and the not concerned
        are disjoint; with no agents (N < 0) all ratios are 0. */
    lemma ResultBounds()
      requires Valid() && params.n != 0
      ensures GetResult().Success?
      ensures params.n < 0 ==> GetResult().value == Outcome(0.0, 0.0, 0.0)
      ensures params.n > 0 ==>
                var o := GetResult().value;
                && 0.0 <= o.adopters <= o.informed <= 1.0
                && 0.0 <= o.notConcerned && o.informed + o.notConcerned <= 1.0
    {
      InformedAreDeciding(ags);
      DecisionsPartition(ags);
      var inf, ad, nc := CountInformed(ags), CountDecision(ags, Adoption), CountDecision(ags, NotConcerned);
      if params.n > 0 {
        RatioOrdered(0, ad, params.n);
        RatioOrdered(ad, inf, params.n);
        RatioOrdered(inf, params.n, params.n);
        RatioOrdered(0, nc, params.n);
        RatioOrdered(inf + nc, params.n, params.n);
        RatioSum(inf, nc, params.n);
      } else {
        assert ags == [];
      }
    }

    // -------------------------------------------------------------------------
    // `get_randint`, used only by the unused second tie method.

    /** `get_randint(low, high, exclude, size)` as written, with the stream of
        values `randint(low, high)` returns: the values it accepts, in order,
        while waiting for min(size, high - low) of them. */
    static method GetRandint(low: nat, high: int, exclude: int, size: int, draws: seq<nat>)
      returns (r: Result<seq<nat>, RandintError>)
      requires forall i :: 0 <= i < |draws| ==> low <= draws[i] < high
      ensures high < 0 <==> r == Failure(NegativeDimensions)
      ensures 0 <= high && !(-high <= exclude < high) <==> r == Failure(IndexOutOfBounds)
      ensures 0 <= high && -high <= exclude < high ==>
                r == FromSample(Sampled(draws, {Wrap(exclude, high)}, Target(low, high, size)))
    {
      if high < 0 {
        return Failure(NegativeDimensions);
      }
      if !(-high <= exclude < high) {
        return Failure(IndexOutOfBounds);
      }
      var marked := new bool[high](_ => false);
      var idx := Wrap(exclude, high);
      marked[idx] := true;
      var o := Reject(marked, draws, Target(low, high, size), {idx});
      r := FromSample(o);
    }

    /** `get_randint` with the bound corrected to leave the excluded index out
        of the count. */
    static method GetRandintCorrected(low: nat, high: int, exclude: int, size: int, draws: seq<nat>)
      returns (r: Result<seq<nat>, RandintError>)
      requires forall i :: 0 <= i < |draws| ==> low <= draws[i] < high
      ensures high < 0 <==> r == Failure(NegativeDimensions)
      ensures 0 <= high && !(-high <= exclude < high) <==> r == Failure(IndexOutOfBounds)
      ensures 0 <= high && -high <= exclude < high ==>
                r == FromSample(Sampled(draws, {Wrap(exclude, high)}, CorrectedTarget(low, high, Wrap(exclude, high), size)))
    {
      if high < 0 {
        return Failure(NegativeDimensions);
      }
      if !(-high <= exclude < high) {
        return Failure(IndexOutOfBounds);
      }
      var marked := new bool[high](_ => false);
      var idx := Wrap(exclude, high);
      marked[idx] := true;
      var o := Reject(marked, draws, CorrectedTarget(low, high, idx, size), {idx});
      r := FromSample(o);
    }

    /** The rejection loop of `get_randint` on the marker array: a draw already
        marked is rejected, any other is accepted and marked. */
    static method Reject(marked: array<bool>, draws: seq<nat>, need: nat, ghost taken: set<nat>)
      returns (r: Option<seq<nat>>)
      requires forall i :: 0 <= i < |draws| ==> draws[i] < marked.Length
      requires forall v :: 0 <= v < marked.Length ==> (marked[v] <==> v in taken)
      modifies marked
      ensures r == Sampled(draws, taken, need)
    {
      var ans: seq<nat> := [];
      var ctr := 0;
      var c := 0;
      ghost var tk := taken;
      assert draws[c..] == draws;
      assert Prefixed(ans, Sampled(draws, taken, need)) == Sampled(draws, taken, need) by {
        var o := Sampled(draws, taken, need);
        if o.Some? {
          assert ans + o.value == o.value;
        }
      }
      while ctr < need && c < |draws|
        invariant c <= |draws| && ctr <= need
        invariant forall v :: 0 <= v < marked.Length ==> (marked[v] <==> v in tk)
        invariant Sampled(draws, taken, need) == Prefixed(ans, Sampled(draws[c..], tk, need - ctr))
        decreases |draws| - c
      {
        var d := draws[c];
        assert draws[c..][0] == d && draws[c..][1..] == draws[c + 1..];
        if !marked[d] {
          PrefixedAssoc(ans, d, Sampled(draws[c + 1..], tk + {d}, need - ctr - 1));
          ans := ans + [d];
          marked[d] := true;
          tk := tk + {d};
          ctr := ctr + 1;
        }
        c := c + 1;
      }
      if ctr < need {
        assert draws[c..] == [];
        r := None;
      } else {
        assert ans + [] == ans;
        r := Some(ans);
      }
    }
  }

  /** The number of steps `range(1, n_steps + 1)` runs. */
  function NumSteps(nSteps: int): nat
  {
    if nSteps < 0 then 0 else nSteps
  }

  /** Python's negative index: -1 is the last element. */
  function Wrap(i: int, n: nat): (r: int)
    requires -(n as int) <= i < n
    ensures 0 <= r < n && (r - i == 0 || r - i == n)
  {
    if i < 0 then i + n else i
  }

  function FromSample(o: Option<seq<nat>>): Result<seq<nat>, RandintError>
  {
    if o.None? then Failure(DrawsExhausted) else Success(o.value)
  }

  /** The accepted values so far followed by those still to come. */
  function Prefixed(ans: seq<nat>, rest: Option<seq<nat>>): Option<seq<nat>>
  {
    if rest.None? then None else Some(ans + rest.value)
  }

  lemma PrefixedAssoc(ans: seq<nat>, d: nat, o: Option<seq<nat>>)
    ensures Prefixed(ans, if o.None? then None else Some([d] + o.value)) == Prefixed(ans + [d], o)
  {
    if o.Some? {
      assert ans + ([d] + o.value) == ans + [d] + o.value;
    }
  }

  /** The three counts divided by N. */
  function Ratios(informed: nat, adopters: nat, notConcerned: nat, n: int): (o: Outcome)
    requires n != 0
    ensures o.informed * n as real == informed as real
    ensures o.adopters * n as real == adopters as real
    ensures o.notConcerned * n as real == notConcerned as real
  {
    Outcome(Ratio(informed, n), Ratio(adopters, n), Ratio(notConcerned, n))
  }

  /** A count divided by N, as Python's true division computes it. */
  function Ratio(count: nat, n: int): (q: real)
    requires n != 0
    ensures q * n as real == count as real
  {
    DivTimes(count as real, n as real);
    count as real / n as real
  }

  lemma DivTimes(a: real, n: real)
    requires n != 0.0
    ensures (a / n) * n == a
  {
  }

  lemma RatioOrdered(a: nat, b: nat, n: int)
    requires n > 0 && a <= b
    ensures Ratio(a, n) <= Ratio(b, n) && Ratio(0, n) == 0.0 && Ratio(n, n) == 1.0
  {
    var x := n as real;
    assert a as real / x <= b as real / x by {
      assert (b as real - a as real) / x >= 0.0;
    }
  }

  lemma RatioSum(a: nat, b: nat, n: int)
    requires n != 0
    ensures Ratio(a, n) + Ratio(b, n) == Ratio(a + b, n)
  {
  }

}
