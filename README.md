# Innovation diffusion: a verified model

This project models the agent-based innovation-diffusion simulation in
`main.py` and the decoding of its experiment configuration in `args.py`.

The simulation holds N agents. Each agent has:

- a social opinion and a social uncertainty;
- optionally, an individual benefit with its own uncertainty, present once the
  agent is informed;
- an interest: NO, MAYBE or YES;
- a decision: NOT_CONCERNED, INFO_REQUEST, NO_ADOPTION, PRE_ADOPTION or
  ADOPTION;
- a timer that starts when the agent enters PRE_ADOPTION;
- a net of neighbours.

Every time step runs three phases over all agents, in order:

1. **Media.** Each agent may be reached by the media. An agent that asked for
   information becomes informed, and the step is queued for discussion.
2. **Discussion.** Each agent empties its queue of origination steps. Each
   entry reaches a decaying share of randomly picked neighbours. They receive
   opinion deltas, perhaps the information, and the entry for their next
   queue. All of this goes into buffers only.
3. **Update.** Each agent commits its buffers and recomputes its status.

After each step a row of social opinions joins the history. Before the first
step, the population is built: the agents are created, the agents with the
highest opinions are marked as extremists, and random directed ties are
added. `get_result` reports the ratios of informed agents, adopters and
agents not concerned.

The configuration decoding has four parts:

- a 4-bit index gives the first-stage parameters;
- a 3-bit index gives the second-stage pair;
- dictionary presets can replace either index;
- a boolean flag parser.

Every random outcome is a parameter of the model:

- the sampled social opinions `socOp(i)`;
- the tie draws `edge(e)`;
- the media and transmission uniforms;
- the neighbour picks;
- the sampled benefits.

The `Draws` datatype collects these, indexed by step, agent, queue entry and
exchange. Given the outcomes, the model fixes the exact state afterwards.

Layout:

| File | Module | Contents |
|---|---|---|
| `common.dfy` | `Common` | `Option` and `Result`, and Python's `round` (round half to even) |
| `config.dfy` | `Config` | `args.py` |
| `status.dfy` | `Status` | `_update_status`, as a function on agent states |
| `discussion.dfy` | `Discussion` | what one agent's turn of `discuss` sends, and what a listener's buffers hold, as values |
| `sampling.dfy` | `Sampling` | the rejection sampling of `get_randint`, as values |
| `network.dfy` | `Network` | the choice of extremists and the ties, as values |
| `agent.dfy` | `Agents` | class `Agent`, whose methods update fields in place |
| `population.dfy` | `Population` | class `InnovationDiffusion`, with construction, the phases, the step loop, the result and `get_randint` on a marker array |

## Model

| member | source | states |
|---|---|---|
| Common.RoundHalfEven | main.py:144 | Python's `round`: the result is within 1/2 of the input, and a tie goes to the even integer |
| Common.RoundHalfEvenZero | main.py:144-146 | rounding gives 0 exactly on [-1/2, 1/2], so an entry reaches nobody exactly when len(net)*proportion <= 1/2 |
| Config.Str2Bool | args.py:3-11 | a bool passes through; text is True exactly when its lower-case form is yes/true/t/y/1 and False exactly when it is no/false/f/n/0; anything else is the "Boolean value expected" error |
| Config.Str2BoolIgnoresCase | args.py:6-8 | a text and its lower-case form parse to the same result |
| Config.Str2BoolSpellings | args.py:6-11 | "YES" is True, "False" is False, "maybe" is an error |
| Config.SetConfigFirst | args.py:79-111 | fails exactly when not 0 <= first < 16; otherwise net_media is "high" iff bit 0 is set, sd_s is 0.3 iff bit 1 is set (else 0.1), ratio_ex is 0.15 iff bit 2 is set (else 0.0), U_s is 0.3 iff bit 3 is set (else 0.05), first_stage is recorded, and no other field changes |
| Config.BitLevels | args.py:96-111 | the source's tests `int(first/2) % 2 == 1`, `int(first/4)` in {1, 3} and `first > 7` are bits 1, 2 and 3 of the index |
| Config.FirstRoundTrip | args.py:90-111 | decoding an index in [0, 16) and encoding the resulting preset gives the index back |
| Config.FirstInjective | args.py:74-111 | the 16 indices give 16 different (net_media, sd_s, ratio_ex, U_s) presets |
| Config.FirstNetMediaParity | args.py:90-93 | net_media is "low" exactly for even indices and "high" exactly for odd ones |
| Config.FirstUpperBits | args.py:102-111 | ratio_ex is 0.15 exactly when first/4 is 1 or 3; U_s is 0.3 exactly when first >= 8 |
| Config.SecondPair | args.py:138-161 | the table row: m_s < 0 exactly when second < 4, m_i > 0 exactly when second is odd, both from {-0.2, -0.15, 0.15, 0.2} |
| Config.SetConfigSecond | args.py:132-163 | fails exactly when not 0 <= second < 8; otherwise second_stage is recorded, m_s and m_i have the signs above, and no other field changes |
| Config.SecondRoundTrip | args.py:138-161 | the (m_s, m_i) pair set by an index in [0, 8) maps back to that index |
| Config.SecondInjective | args.py:128-161 | the 8 indices give 8 different (m_s, m_i) pairs |
| Config.GetText | args.py:119 | a dictionary lookup succeeds exactly when the key is present and holds text; otherwise it fails with a missing-key or wrong-type error |
| Config.GetNumber | args.py:120-122 | a dictionary lookup succeeds exactly when the key is present and holds a number; otherwise it fails with a missing-key or wrong-type error |
| Config.SetConfigFirstDict | args.py:117-123 | succeeds exactly when all four keys are present with the right kinds; first_stage becomes -1, exactly net_media, sd_s, ratio_ex and U_s are copied, and nothing else changes; a missing-key error names a listed key that is absent |
| Config.SetConfigSecondDict | args.py:167-171 | succeeds exactly when m_s and m_i are present as numbers; second_stage becomes -1, exactly those are copied, and nothing else changes |
| Config.GetExpArgs | args.py:183-193 | succeeds exactly when each stage's preset is complete and well typed, or, without a preset, its index is in range. On success each stage is -1 when its preset is given and the index otherwise; net_media, sd_s, ratio_ex and U_s come from the first preset or the bits of the first index; m_s and m_i come from the second preset or the table row of the second index; every other field is the parsed one |
| Config.GetArgs | args.py:201-209 | fails with "first_stage is not given" or "second_stage is not given", in that order, and succeeds exactly when both are given, keeping both indices |
| Config.GetArgsResolves | args.py:196-209 | after a successful `get_args` every parameter the simulation reads is set, and net_media is "low" or "high" |
| Status.GlobalView | main.py:56-61 | without an individual benefit the global pair is the social pair; otherwise each global value is the midpoint of its social and individual values, so the global opinion lies between them |
| Status.Classify | main.py:64-71 | strict thresholds: op - u == 0 never gives YES and op + u == 0 never gives NO; for u >= 0, YES iff op - u > 0, NO iff op + u < 0, MAYBE iff neither |
| Status.ClassifyMonotone | main.py:64-71 | a higher global opinion never gives a lower interest |
| Status.ClassifySharpens | main.py:64-71 | lowering the uncertainty never changes a YES or NO verdict |
| Status.StatusUpdate | main.py:46-89 | ADOPTION is left unchanged; otherwise the opinions, information and benefit are kept, the global pair and interest are recomputed, the timer is cleared unless the interest is YES, an uninformed agent is INFO_REQUEST (MAYBE or YES) or NOT_CONCERNED (NO), an informed agent is NO_ADOPTION exactly when the interest is not YES, ADOPTION requires a timer at least rho steps old, and PRE_ADOPTION keeps an existing timer or starts it at the current step; an uninformed agent with interest YES keeps its timer as it was |
| Status.Reassess | main.py:55-71 | the global pair is GlobalView of the agent's opinions, the interest is Classify of it, the timer survives only an interest of YES, and no other field changes |
| Status.Decide | main.py:73-89 | an uninformed agent is NOT_CONCERNED exactly when its interest is NO and INFO_REQUEST otherwise, with its timer kept; an informed one is NO_ADOPTION (timer cleared) exactly when the interest is not YES, ADOPTION only with a timer at least rho steps old, and otherwise PRE_ADOPTION with the existing timer or one started now; only the decision and timer change |
| Status.Inform | main.py:119-122 | the agent becomes informed with benefit (sample, U_i), and nothing else changes |
| Status.Commit | main.py:167-170 | the deltas are added to the social opinion and uncertainty, and nothing else changes |
| Status.StatusUpdateSettles | main.py:46-89 | from any state whose information and benefit agree, whose timer runs only when the agent is informed, and which is already shaped when adopted, the update leaves the derived fields consistent with the inputs |
| Status.SettledPreserved | main.py:46-89 | a consistent state stays consistent through an update |
| Status.TimerNotInFuture | main.py:84-89 | if the timer did not point past the current step, a non-adopted agent that ends in PRE_ADOPTION has a timer at or before the current step |
| Status.AdoptionFollowsPreAdoption | main.py:84-87 | ADOPTION is entered only from PRE_ADOPTION, with a timer at least rho steps old |
| Status.InformLeavesInfoRequest | main.py:133-135 | informing an agent in INFO_REQUEST and updating it moves it to NO_ADOPTION or PRE_ADOPTION |
| Discussion.Proportion | main.py:143 | the share of neighbours an entry reaches is never negative, is at most 1 for gamma >= 0 and past entries, and is 1 for an entry of the current step |
| Discussion.ProportionVanishes | main.py:143 | an entry at least 1/gamma steps old reaches no share |
| Discussion.NumToDiscuss | main.py:144-146 | at most len(net) neighbours for a share in [0, 1], all of them for share 1, none for an empty net, and none exactly when len(net)*share <= 1/2 |
| Discussion.Influence | main.py:153-156 | an exchange changes the listener's deltas only when the overlap exceeds the speaker's uncertainty |
| Discussion.Overlap | main.py:153 | the overlap of two intervals is at most the width of either, so an overlap above the speaker's uncertainty forces that uncertainty to be positive and the division to be defined |
| Discussion.Pull | main.py:154-156 | the pull factor is 0 unless the overlap exceeds a positive speaker uncertainty |
| Discussion.Exchange | main.py:152-163 | one exchange appends the entry's step to the listener's new queue, and raises the information flag only when the speaker is informed and the draw hit |
| Discussion.Receive | main.py:151-163 | a listener's buffers after the messages, in order, one exchange each; ReceiveClosedForm and ReceiveAppend state what they hold |
| Discussion.InfluenceTowardsSpeaker | main.py:153-156 | with mu in [0, 1], an exchange moves the listener's opinion and uncertainty towards the speaker's without overshooting; a speaker whose uncertainty is not positive exerts no influence at all |
| Discussion.ReceiveClosedForm | main.py:151-163 | after a run of messages from one speaker, the new queue gains every carried step in order, the deltas grow by the message count times one influence, and the flag is set iff it was set or the speaker may inform this listener and some message's draw hit |
| Discussion.ReceiveUninformed | main.py:159-161 | an uninformed speaker never raises a listener's information flag |
| Discussion.ReceiveAppend | main.py:151-163 | receiving two runs of messages is receiving them one after the other |
| Discussion.ToPeer | main.py:150-151 | the messages addressed to one listener are messages of the turn whose chosen neighbour is that listener, in order |
| Discussion.ToPeerSplits | main.py:150-163 | every message reaches exactly one listener: over any list of distinct listeners that covers the net, the numbers of messages addressed to each add up to the whole turn |
| Discussion.EntrySends | main.py:150-163 | an entry that reaches n neighbours sends exactly n messages: message j goes to neighbour pick(k, j) mod len(net), carries the entry's step, and hands information over iff its uniform falls below omega |
| Discussion.AllSends | main.py:141-163 | every message of a turn addresses a member of the net and carries a step of the queue |
| Discussion.AllSendsCount | main.py:141-163 | a turn sends exactly the sum over its queue entries of round(len(net)*proportion) |
| Discussion.TotalReachBound | main.py:143-146 | for gamma >= 0 and entries not from the future, a turn of k entries sends at most k * len(net) messages |
| Sampling.Sampled | main.py:207-213 | the accepted values are exactly as many as asked, distinct, none of them already marked, and all of them drawn |
| Sampling.SampledBounded | main.py:207-212 | draws from [low, high) can yield no more values than [low, high) holds unmarked |
| Sampling.EnumerationCompletes | main.py:207-212 | a stream that enumerates [a, b) yields any number of values up to the unmarked ones |
| Sampling.SamplingStalls | main.py:207 | with the excluded index inside [low, high) and size >= high - low, no draw stream ever meets the loop bound |
| Sampling.CorrectedCompletes | main.py:207 | with the bound that leaves the excluded index out, enumerating [low, high) always meets it |
| Agents.MediaProbability | main.py:126-129 | the media probability is defined exactly for "low" and "high", lies strictly between 0 and 1, and is 0.4 exactly for "high" |
| Agents.MediaHit | main.py:131 | the media reach the agent exactly when the uniform falls below the setting's probability, and never without one |
| Agents.FreshAgentUndecided | main.py:92-111 | a new agent is settled and uninformed, and is NOT_CONCERNED (exactly when its social interval lies below 0, for U_s >= 0) or INFO_REQUEST |
| Agents.Fresh | main.py:92-108 | before its first update, a new agent has the sampled opinion and U_s, no information, no benefit and no timer, and is not adopted |
| Agents.MediaReceive | main.py:131-137 | a hit informs an uninformed agent in INFO_REQUEST with benefit (sample, U_i), keeping its opinions; any other agent, and any agent on a miss, is unchanged |
| Agents.Settle | main.py:166-179 | the update commits the deltas, informs the agent exactly when it was informed or was handed information, and never undoes an adoption |
| Agents.Absorbed | main.py:167-177 | before the status update, the deltas are added, the information flag is the old one or the handed-over one, a benefit is drawn only when information was handed over, and the decision and timer are untouched |
| Agents.MediaReceiveEffect | main.py:131-137 | the media phase keeps an agent settled; it changes only an agent in INFO_REQUEST that is hit, which becomes informed and ends in NO_ADOPTION or PRE_ADOPTION |
| Agents.SettleEffect | main.py:166-179 | the update commits exactly the deltas, informs the agent exactly when it was informed or handed information, keeps adopters adopters, and leaves it settled |
| Agents.Agent.constructor | main.py:24-111 | a new agent has the sampled opinion, U_s, no ties, empty queues, empty buffers, and the status of `_update_status(0)` |
| Agents.Agent.UpdateStatus | main.py:46-89 | the agent's state becomes StatusUpdate of the old one; the net, role, queue and buffers are unchanged |
| Agents.Agent.UpdateInterest | main.py:55-71 | the global pair, interest and timer are updated as in the first half of StatusUpdate; nothing else changes |
| Agents.Agent.UpdateDecision | main.py:73-89 | the decision and timer are updated as in the second half of StatusUpdate; nothing else changes |
| Agents.Agent.GetInfo | main.py:119-122 | the agent's state becomes Inform of the old one; nothing else changes |
| Agents.Agent.ReceiveInfoMedia | main.py:125-137 | succeeds exactly when the setting has a media probability; on a hit, the queue gains exactly the current step and the state changes as MediaReceive says; on a miss nothing changes |
| Agents.Agent.Discuss | main.py:140-163 | the queue ends empty; the speaker's own state, buffers, net and role are unchanged; each neighbour's buffers are what it holds after receiving, in order, the messages of the turn addressed to it, and its other fields are unchanged |
| Agents.Agent.DiscussEntry | main.py:142-163 | one queue entry adds to each neighbour's buffers exactly the messages of that entry addressed to it |
| Agents.Agent.Broadcast | main.py:151-163 | the chosen neighbours receive the messages one by one, in order |
| Agents.Agent.DiscussOne | main.py:152-163 | one exchange changes only the listener's buffers, which become Exchange of the old ones |
| Agents.Agent.Update | main.py:166-179 | the state becomes Settle of the old state and buffers; the queue becomes the old new-queue; the buffers are cleared |
| Agents.Agent.Absorb | main.py:167-177 | the deltas are committed, any information handed over is taken, the queues are swapped, and the buffers are cleared |
| Agents.Agent.CommitDeltas | main.py:167-173 | the deltas are added and reset to 0; the queue becomes the old new-queue |
| Agents.Agent.TakeOverInfo | main.py:175-177 | a raised flag informs the agent and is lowered; otherwise nothing changes |
| Agents.Agent.MakeExtremist | main.py:225-227 | the agent is marked extremist, gets uncertainty U_s_ex, and its status is recomputed at step 0 |
| Network.NumEdges | main.py:231-234 | N ties for "low", 4N for "high", and undefined otherwise |
| Network.RankOrdered | main.py:223 | an agent sorted before another, by higher opinion or by equal opinion and lower index, has a lower rank |
| Network.RanksDistinct | main.py:223 | no two agents share a rank |
| Network.ExtremistsAreTop | main.py:221-227 | every extremist's opinion is at least every non-extremist's |
| Network.EdgePair | main.py:238 | a tie draw gives two distinct agents of the pool |
| Network.EdgePairOnto | main.py:238 | every ordered pair of distinct agents is the image of some draw |
| Network.Ties | main.py:236-239 | an agent's ties point into the population and never to itself |
| Network.TiesTotal | main.py:237-239 | over all agents, the nets hold exactly as many ties as were drawn |
| Population.DecisionsPartition | main.py:13-17 | every agent is in exactly one of the five decisions |
| Population.InformedAreDeciding | main.py:74-89 | among valid agents, the informed ones are exactly those in NO_ADOPTION, PRE_ADOPTION or ADOPTION |
| Population.MediaStatesAt | main.py:284-285 | after the media phase, each agent's state is its own media reception |
| Population.MediaStates | main.py:284-285 | the media phase maps every agent's state one by one and keeps the population's size |
| Population.MediaQueues | main.py:284-285 | after the media phase, each agent's queue has gained the step exactly when it was hit |
| Population.AllSpeakerSends | main.py:288-289 | the messages of all speakers address members of their own nets |
| Population.Heard | main.py:288-289 | a listener's buffers after the first c speakers, in order, addressed it; HeardUninformed and HeardOutsideNets state what they hold |
| Population.Talked | main.py:287-293 | an agent's state and queue after the discussion of all speakers and its own update |
| Population.Stepped | main.py:283-293 | an agent's state and queue after media, discussion and update; StepKeepsStatus and StepNeedsInformedSpeaker state what it keeps |
| Population.HeardUninformed | main.py:288-289 | when no speaker is informed, no listener's information flag is raised |
| Population.HeardOutsideNets | main.py:288-289 | an agent in nobody's net hears nothing |
| Population.StepKeepsStatus | main.py:276-295 | a step keeps every agent settled, keeps the informed informed, and keeps adopters adopters |
| Population.StepNeedsInformedSpeaker | main.py:276-295 | when nobody is informed after the media phase, nobody is informed after the step |
| Population.StepStates | main.py:283-293 | the states after step t: agent x's is the state Stepped gives it |
| Population.StepQueues | main.py:283-293 | the queues after step t: agent x's is the queue Stepped gives it |
| Population.SteppedStates | main.py:283-293 | agents that each hold what Stepped gives them hold, together, StepStates and StepQueues |
| Population.Run | main.py:304-305 | the states and queues after steps 1..k, one step after another, starting from the given ones; the sizes stay those of the population |
| Population.History | main.py:267-269 | the rows steps 1..k append to the history: one per step |
| Population.HistoryAt | main.py:304-305 | row j of the history of k steps holds the opinions after step j + 1 of the run |
| Population.RunStep | main.py:304-305 | applying StepStates and StepQueues to the run after step k, and appending the opinions, gives the run and history after step k + 1 |
| Population.RunKeepsStatus | main.py:304-305 | over a whole run every agent stays settled, informed agents stay informed and adopters stay adopters |
| Population.RunStepKeepsStatus | main.py:276-295 | what a run kept up to step k it still keeps after step k + 1 |
| Population.StepStatesKeepStatus | main.py:276-295 | StepStates keeps every agent settled, keeps the informed informed and keeps adopters adopters |
| Population.Ratio | main.py:261-263 | a count divided by N, times N, is the count |
| Population.Wrap | main.py:205 | Python's index -k names element n - k, and a non-negative index names itself |
| Population.InnovationDiffusion.Create | main.py:184-197 | fails exactly when `init_ags` raises; otherwise the population is valid, agent i has opinion socOp(i), the agents are exactly those `init_ags` builds (Built: extremists and tie nets included), and the history is the single row of initial opinions |
| Population.InnovationDiffusion.BuiltReady | main.py:216-250 | the agents `init_ags` returns are settled with no pending change, and every tie joins two agents of the population |
| Population.InnovationDiffusion.InitFailure | main.py:216-239 | more extremists than agents raises first; otherwise a setting other than low or high raises; otherwise the first tie fails. There is no error exactly when none of the first two applies and N >= 2 or no tie is drawn |
| Population.InnovationDiffusion.OnlyOneAgentCannotTie | main.py:236-238 | once the first two errors are out of the way, drawing a tie fails exactly when N = 1 |
| Population.InnovationDiffusion.FromAgents | main.py:194-197 | the population holds the given agents, and the history is their opinions as one row |
| Population.InnovationDiffusion.InitAgs | main.py:216-250 | fails exactly in the cases of InitFailure, with its error; otherwise returns N fresh agents with opinions socOp(i), extremists exactly the round(N * ratio_ex) first in a stable descending sort by opinion (when ratio_ex != 0), and agent i's net holding, in draw order, the agents of the ties drawn from it |
| Population.InnovationDiffusion.NewAgents | main.py:218 | N distinct fresh agents, agent k with opinion socOp(k), no ties and the status of a new agent |
| Population.InnovationDiffusion.AddTies | main.py:236-239 | the ties are added to agents without ties; all else is kept |
| Population.InnovationDiffusion.TieLoop | main.py:237-239 | each net gains, in order, the agents of the ties drawn from its owner; states, buffers, roles and queues are unchanged |
| Population.InnovationDiffusion.AddTie | main.py:239 | agent v joins the end of agent u's net; nothing else changes |
| Population.InnovationDiffusion.SetExtremists | main.py:221-227 | fails exactly when more extremists are asked for than there are agents; otherwise the extremists are exactly the agents of rank below round(N * ratio_ex) |
| Population.InnovationDiffusion.MarkExtremists | main.py:223-227 | the agents of rank below n_ex become extremists with U_s_ex and a fresh status; the others are unchanged |
| Population.InnovationDiffusion.MediaPhase | main.py:283-285 | every agent's state and queue become its media reception; its buffers, net and role are unchanged |
| Population.InnovationDiffusion.DiscussPhase | main.py:287-289 | every queue ends empty; states, nets and roles are unchanged; every agent's buffers hold what all speakers, in order, addressed to it |
| Population.InnovationDiffusion.DiscussTurns | main.py:288-289 | after the turns of all agents, in order, every agent has heard every speaker |
| Population.InnovationDiffusion.Turn | main.py:289 | agent i's turn empties its own queue and adds to each agent's buffers what i addressed to it; nothing else changes |
| Population.InnovationDiffusion.UpdatePhase | main.py:291-293 | every agent settles what it heard with its sampled benefit; its queue becomes what it heard |
| Population.InnovationDiffusion.TalkAndUpdate | main.py:287-293 | after discussion and update, every agent holds the state and queue Talked gives it, with no pending change |
| Population.InnovationDiffusion.StepAgents | main.py:283-293 | after the three phases, the agents' states and queues are StepStates and StepQueues of the old ones; every agent is valid with no pending change, stays informed and adopted if it was, and keeps its net and role |
| Population.InnovationDiffusion.Advance | main.py:283-293 | the three phases keep the population valid; the states and queues become StepStates and StepQueues of the old ones, and nets and roles are unchanged |
| Population.InnovationDiffusion.UpdateSocOpDis | main.py:267-269 | the history gains exactly the current opinions as its last row, and the population is unchanged |
| Population.InnovationDiffusion.SimulateStep | main.py:276-295 | the states and queues become StepStates and StepQueues of the old states, queues and nets; the history gains the new opinions as one row; nets and roles are unchanged; the population stays valid |
| Population.InnovationDiffusion.StepOfRun | main.py:304-305 | one pass of the loop of `simulate`: a run and its history as far as step k are extended to step k + 1 |
| Population.InnovationDiffusion.Simulate | main.py:298-305 | the states and queues at the end are Run of the initial ones over steps 1..n_steps, and the history is the old one followed by History of that run, one row per step (row k - 1 of the new rows holds the opinions after step k, by HistoryAt); nets and roles are unchanged; nobody forgets the innovation or drops an adoption |
| Population.InnovationDiffusion.GetResult | main.py:253-264 | fails with a division by zero exactly when N = 0; otherwise the ratios are the counts of informed agents, adopters and agents not concerned, divided by N |
| Population.InnovationDiffusion.ResultBounds | main.py:253-264 | for N > 0 every ratio lies in [0, 1], adopters <= informed, and informed + not concerned <= 1; for N < 0 all ratios are 0 |
| Population.InnovationDiffusion.GetRandint | main.py:201-213 | as written: a negative high fails in `np.zeros`, an excluded index outside the array fails, and otherwise the result is the first min(size, high - low) unmarked values of the draw stream (none for a negative size), or exhaustion |
| Population.InnovationDiffusion.GetRandintCorrected | main.py:201-213 | the same with the loop bound counting only the values that can still be accepted |
| Population.InnovationDiffusion.Reject | main.py:207-213 | the rejection loop over the marker array returns exactly Sampled of the draw stream |

## Left out

- `plot.py` as a whole is not part of this model, because it only draws and saves figures.
- Argument parsing is not modelled. `ArgsConfig.__init__`, `parse_args`, the parameter defaults and the `__main__` driver are left out. `Config.Args` stands for the namespace `parse_args` has produced, with `Option` for the parameters that have no default.
- The title builders `get_args_title_first` and `get_args_title_second` are left out, because their output depends on Python's float formatting.
- The verbose printing in `__init__` and `simulate`, and `log_v`, are left out, because they are I/O.
- `get_soc_op_dis` is left out. It only returns the history field, `socOpDis`.
- The numpy random generator and the seed are left out. Every outcome is a parameter instead. The model does not follow the order in which the generator would be consumed, so it says nothing about which outcome a given seed produces.
- Opinions are `real` numbers, not IEEE doubles, so rounding errors of the float arithmetic are not modelled.
- `Agents.Agent.Discuss` requires that the speaker is not in its own net. `init_ags` never draws a self-tie, so this holds in every built population.
- The commented-out second tie method is not modelled. `get_randint` is modelled on its own.
- `GetRandint`: `low` is a natural number, and the draws are a finite sequence. Where the source would loop forever on an exhausted stream, the model returns `DrawsExhausted`.
- The neighbour index of `np.random.choice` is taken as a number reduced modulo the net size. The pair of a tie draw is taken as reduced onto distinct agents (`Network.EdgePair`). `EdgePairOnto` shows that no pair is lost by this.
- The extremists are chosen by their rank in a stable descending sort, rather than by building a sorted list. Python's `sorted` is stable, so the two agree.
- The process-wide `Agent._ids` counter is left out: nothing in the core reads the ids.
- `Config.Lower` lower-cases ASCII letters only, not the full Unicode mapping of `str.lower`.
- Config.SetConfigFirstDict: a preset value of the wrong kind (a number for net_media, text for a number) is a `WrongType` error. Python would copy it unchecked.
- Config.SetConfigSecondDict: a preset m_s or m_i that is not a number is a `WrongType` error. Python would copy it unchecked.
- Config.GetText: a value that is not text is a `WrongType` error, where Python returns whatever the key holds.
- Config.GetNumber: a value that is not a number is a `WrongType` error, where Python returns whatever the key holds.
- Status.Classify: the if-and-only-if characterisation of each interest is stated for a non-negative uncertainty only. For a negative uncertainty only the strict-threshold facts are stated.
- An unknown net_media setting is modelled as an error: `UnknownNetMedia` in `InitAgs`, and `ok == false` in `ReceiveInfoMedia`. The source fails there on an unbound local variable.
- A ratio_ex that asks for more extremists than there are agents is an error, `ExtremistIndexOutOfRange`. The code indexes the sorted list past its end, and the count is not clamped.
- Adopted agents still commit their discussion deltas in `update`, as the code does. Only `_update_status` returns early for them.

## Findings

| source | as written | input that shows it | evidently intended | confidence | as-written member | corrected member |
|---|---|---|---|---|---|---|
| main.py:207 | the loop waits for min(size, high - low) accepted values, but the excluded index is marked in advance and can never be accepted, so when it lies in [low, high) and size >= high - low the bound is unreachable and the loop never ends | low = 0, high = 3, exclude = 1, size = 3: only 0 and 2 can be accepted, but the loop waits for 3 values | wait for no more values than [low, high) holds unmarked | not executed | Population.InnovationDiffusion.GetRandint, Sampling.SamplingStalls | Population.InnovationDiffusion.GetRandintCorrected, Sampling.CorrectedCompletes |
