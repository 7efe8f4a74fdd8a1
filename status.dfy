/** The adoption state machine of one agent, as values: the opinion fields
    `_update_status` reads, the interest classification and the decision
    transition. The class `Agents.Agent` keeps these fields and is specified
    by `StatusUpdate`. */
module Status {
  import opened Common

  datatype Interest = No | Maybe | Yes

  /** NOT_CONCERNED, INFO_REQUEST, NO_ADOPTION, PRE_ADOPTION, ADOPTION. */
  datatype Decision = NotConcerned | InfoRequest | NoAdoption | PreAdoption | Adoption

  /** The individual benefit and its uncertainty: both present or both absent. */
  datatype Individual = Individual(benefit: real, u: real)

  /** The fields of an agent that `_update_status` reads or writes. */
  datatype AgentState = AgentState(
    socOp: real, socU: real,
    info: bool, ind: Option<Individual>,
    gloOp: real, gloU: real,
    interest: Interest, decision: Decision,
    yesRd: Option<nat>)

  /** The global opinion and uncertainty: the social pair alone, or the
      midpoint of the social and the individual pair. */
  function GlobalView(socOp: real, socU: real, ind: Option<Individual>): (r: (real, real))
    ensures ind.None? ==> r == (socOp, socU)
    ensures ind.Some? ==> r.0 - socOp == ind.value.benefit - r.0 && r.1 - socU == ind.value.u - r.1
    ensures ind.Some? ==> Min(socOp, ind.value.benefit) <= r.0 <= Max(socOp, ind.value.benefit)
  {
    match ind
    case None => (socOp, socU)
    case Some(i) => ((socOp + i.benefit) / 2.0, (socU + i.u) / 2.0)
  }

  /** Interest, with strict thresholds: NO when the interval [op-u, op+u] lies
      wholly below zero, YES when wholly above, MAYBE when it touches zero. */
  function Classify(op: real, u: real): (r: Interest)
    ensures op - u == 0.0 ==> r != Yes
    ensures op + u == 0.0 ==> r != No
    ensures u >= 0.0 ==> (r == Yes <==> op - u > 0.0)
    ensures u >= 0.0 ==> (r == No <==> op + u < 0.0)
    ensures u >= 0.0 ==> (r == Maybe <==> op - u <= 0.0 <= op + u)
  {
    if op + u < 0.0 then No
    else if op - u > 0.0 then Yes
    else Maybe
  }

  function InterestRank(i: Interest): nat
  {
    match i
    case No => 0
    case Maybe => 1
    case Yes => 2
  }

  /** A higher opinion never gives a lower interest. */
  lemma ClassifyMonotone(op1: real, op2: real, u: real)
    requires op1 <= op2
    ensures InterestRank(Classify(op1, u)) <= InterestRank(Classify(op2, u))
  {
  }

  /** Less uncertainty never turns a clear verdict into another one. */
  lemma ClassifySharpens(op: real, u1: real, u2: real)
    requires 0.0 <= u1 <= u2
    ensures Classify(op, u2) != Maybe ==> Classify(op, u1) == Classify(op, u2)
  {
  }

  /** `_update_status(timestep)`: nothing happens once adopted; otherwise the
      global view, the interest and the decision are recomputed, and the
      adoption timer `yesRd` is cleared on every regression. */
  function StatusUpdate(st: AgentState, t: nat, rho: int): (r: AgentState)
    // terminal state: nothing changes
    ensures st.decision == Adoption ==> r == st
    // the opinion and information fields are only read
    ensures r.socOp == st.socOp && r.socU == st.socU && r.info == st.info && r.ind == st.ind
    ensures st.decision != Adoption ==> (r.gloOp, r.gloU) == GlobalView(st.socOp, st.socU, st.ind)
    ensures st.decision != Adoption ==> r.interest == Classify(r.gloOp, r.gloU)
    // a regression of the interest clears the timer
    ensures st.decision != Adoption && r.interest != Yes ==> r.yesRd.None?
    // partition of the decisions by the info flag
    ensures st.decision != Adoption && !st.info ==>
              r.decision == (if r.interest == No then NotConcerned else InfoRequest)
    ensures st.decision != Adoption && !st.info && r.interest == Yes ==> r.yesRd == st.yesRd
    ensures st.decision != Adoption && st.info ==>
              r.decision in {NoAdoption, PreAdoption, Adoption}
    ensures st.decision != Adoption && st.info ==> (r.decision == NoAdoption <==> r.interest != Yes)
    // adoption needs a running timer that has lasted rho steps
    ensures st.decision != Adoption && r.decision == Adoption ==>
              st.info && st.yesRd.Some? && t - st.yesRd.value >= rho && r.yesRd == st.yesRd
    ensures st.decision != Adoption && st.info && r.interest == Yes ==>
              (r.decision == Adoption <==> st.yesRd.Some? && t - st.yesRd.value >= rho)
    // a running timer is kept, a new one starts now
    ensures st.decision != Adoption && r.decision == PreAdoption ==>
              r.yesRd == (if st.yesRd.Some? then st.yesRd else Some(t))
  {
    if st.decision == Adoption then st else Decide(Reassess(st), t, rho)
  }

  /** The first half of `_update_status`: the global view and the interest
      are recomputed, and the timer is kept only while the interest is Yes. */
  function Reassess(st: AgentState): (r: AgentState)
    ensures (r.gloOp, r.gloU) == GlobalView(st.socOp, st.socU, st.ind)
    ensures r.interest == Classify(r.gloOp, r.gloU)
    ensures r.interest == Yes ==> r.yesRd == st.yesRd
    ensures r.interest != Yes ==> r.yesRd.None?
    ensures r.(gloOp := st.gloOp, gloU := st.gloU, interest := st.interest, yesRd := st.yesRd) == st
  {
    var (g, gu) := GlobalView(st.socOp, st.socU, st.ind);
    var interest := Classify(g, gu);
    st.(gloOp := g, gloU := gu, interest := interest, yesRd := if interest == Yes then st.yesRd else None)
  }

  /** The second half: the decision, from the information flag, the interest
      and the timer. */
  function Decide(st: AgentState, t: nat, rho: int): (r: AgentState)
    ensures !st.info ==> (r.decision == NotConcerned <==> st.interest == No) && r.yesRd == st.yesRd
    ensures !st.info ==> r.decision in {NotConcerned, InfoRequest}
    ensures st.info ==> r.decision in {NoAdoption, PreAdoption, Adoption}
    ensures st.info ==> (r.decision == NoAdoption <==> st.interest != Yes)
    ensures r.decision == NoAdoption ==> r.yesRd.None?
    ensures r.decision == Adoption ==> st.yesRd.Some? && t - st.yesRd.value >= rho && r.yesRd == st.yesRd
    ensures r.decision == PreAdoption ==> r.yesRd == (if st.yesRd.Some? then st.yesRd else Some(t))
    ensures r.(decision := st.decision, yesRd := st.yesRd) == st
  {
    assert st.interest == No || st.interest == Maybe || st.interest == Yes;
    if !st.info then
      st.(decision := if st.interest == Maybe || st.interest == Yes then InfoRequest else NotConcerned)
    else if st.interest == Maybe || st.interest == No then
      st.(decision := NoAdoption, yesRd := None)
    else if st.yesRd.Some? && t - st.yesRd.value >= rho then
      st.(decision := Adoption)
    else
      st.(decision := PreAdoption, yesRd := if st.yesRd.None? then Some(t) else st.yesRd)
  }

  /** The shape every agent keeps outside `_update_status`: information and
      benefit go together, the timer runs exactly in PRE_ADOPTION and ADOPTION,
      and the decision is one of the informed states exactly when informed. */
  predicate Shaped(st: AgentState)
  {
    && (st.info <==> st.ind.Some?)
    && (st.yesRd.Some? <==> st.decision in {PreAdoption, Adoption})
    && (st.info <==> st.decision in {NoAdoption, PreAdoption, Adoption})
  }

  /** Shaped, and for a non-adopted agent also settled: the derived fields agree
      with the opinions. */
  predicate Settled(st: AgentState)
  {
    && Shaped(st)
    && (st.decision != Adoption ==>
          (st.gloOp, st.gloU) == GlobalView(st.socOp, st.socU, st.ind)
          && st.interest == Classify(st.gloOp, st.gloU))
  }

  /** Marks the agent informed with a freshly evaluated individual benefit. */
  function Inform(st: AgentState, benefit: real, uI: real): (r: AgentState)
    ensures r.info && r.ind == Some(Individual(benefit, uI))
    ensures r.(info := st.info, ind := st.ind) == st
  {
    st.(info := true, ind := Some(Individual(benefit, uI)))
  }

  /** Adds the buffered discussion changes to the social opinion. */
  function Commit(st: AgentState, dOp: real, dU: real): (r: AgentState)
    ensures r.socOp - st.socOp == dOp && r.socU - st.socU == dU
    ensures r.(socOp := st.socOp, socU := st.socU) == st
  {
    st.(socOp := st.socOp + dOp, socU := st.socU + dU)
  }

  /** `_update_status` settles any agent whose information and benefit agree and
      whose timer runs only when informed; an adopted agent must already be shaped. */
  lemma {:induction false} StatusUpdateSettles(st: AgentState, t: nat, rho: int)
    requires st.info <==> st.ind.Some?
    requires st.yesRd.Some? ==> st.info
    requires st.decision == Adoption ==> Shaped(st)
    ensures Settled(StatusUpdate(st, t, rho))
  {
  }

  /** Settled states stay settled through a transition. */
  lemma SettledPreserved(st: AgentState, t: nat, rho: int)
    requires Settled(st)
    ensures Settled(StatusUpdate(st, t, rho))
  {
    StatusUpdateSettles(st, t, rho);
  }

  /** A timer never points into the future: if it did not before the update,
      it does not after. */
  lemma TimerNotInFuture(st: AgentState, t: nat, rho: int)
    requires st.yesRd.Some? ==> st.yesRd.value <= t
    ensures var r := StatusUpdate(st, t, rho);
            r.decision == PreAdoption && st.decision != Adoption ==> r.yesRd.Some? && r.yesRd.value <= t
  {
  }

  /** Adoption is entered only from PRE_ADOPTION, rho or more steps after the
      step in which PRE_ADOPTION began. */
  lemma AdoptionFollowsPreAdoption(st: AgentState, t: nat, rho: int)
    requires Shaped(st) && st.decision != Adoption
    requires StatusUpdate(st, t, rho).decision == Adoption
    ensures st.decision == PreAdoption && st.yesRd.Some? && t - st.yesRd.value >= rho
  {
  }

  /** Informing an agent that asked for information and updating its status moves
      it into the informed part of the funnel. */
  lemma InformLeavesInfoRequest(st: AgentState, benefit: real, uI: real, t: nat, rho: int)
    requires Settled(st) && st.decision == InfoRequest
    ensures StatusUpdate(Inform(st, benefit, uI), t, rho).decision in {NoAdoption, PreAdoption}
  {
  }
}
