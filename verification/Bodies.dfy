/** Outcome vectors the bodies of a plan can really produce. */
module Bodies {
  import opened Values
  import opened Tools
  import opened Selector
  import opened Attempt

  /** These are the outcomes of the plan's bodies with this registry, in these surroundings. */
  ghost predicate Produces(reg: map<string, Tool>, plan: seq<PlannedSubtask>, around: nat -> Surroundings,
                           outcomes: seq<SubtaskOutcome>)
  {
    && RegistryOk(reg) && |outcomes| == |plan|
    && forall i: nat :: i < |plan| ==> RunOneSubtask(reg, i, plan[i], around(i)) == Settles(outcomes[i])
  }

  ghost predicate Producible(plan: seq<PlannedSubtask>, outcomes: seq<SubtaskOutcome>) {
    exists reg: map<string, Tool>, around: nat -> Surroundings :: Produces(reg, plan, around, outcomes)
  }

  /** A tool that accepts everything and promises a "final" string. */
  function Teller(name: string): Tool {
    Tool(name, _ => true, o => FinalString(o).Some?, 1000)
  }

  /** Every tool the plan names. */
  function Tellers(plan: seq<PlannedSubtask>): map<string, Tool> {
    map hint | hint in set i | 0 <= i < |plan| :: plan[i].toolHint :: Teller(hint)
  }

  lemma TellersAreOk(plan: seq<PlannedSubtask>)
    ensures RegistryOk(Tellers(plan))
    ensures forall i :: 0 <= i < |plan| ==>
      plan[i].toolHint in Tellers(plan) && Tellers(plan)[plan[i].toolHint] == Teller(plan[i].toolHint)
  {
  }

  /** What happens to a body: it passes, the provider names no tool, or its tool raises. */
  datatype Fate = Fine | Refused | Broken

  const PAYLOAD: Dict := map["final" := Str("x")]

  function Meets(ps: PlannedSubtask, fate: Fate): Surroundings {
    Surroundings(
      ChatReply(if fate.Refused? then [] else [ToolRequest(ps.toolHint, map[])], 0.0),
      (_, _) => if fate.Broken? then RaisesOther("down") else Output(PAYLOAD, 0))
  }

  /** The outcome of subtask i when it meets its fate. */
  function Fated(i: nat, ps: PlannedSubtask, fate: Fate): SubtaskOutcome {
    match fate
    case Fine => SubtaskOutcome(i, ps.description, Some(ps.toolHint), Some(PAYLOAD), true, None)
    case Refused => FailedOutcome(i, ps, None, None, FailureReason(NoToolForSubtask, Some(ps.toolHint)))
    case Broken =>
      FailedOutcome(i, ps, Some(ps.toolHint), None, FailureReason(ToolReturnedError, Some(ps.toolHint)))
  }

  lemma BodyMeetsFate(reg: map<string, Tool>, i: nat, ps: PlannedSubtask, fate: Fate)
    requires ps.toolHint in reg && reg[ps.toolHint] == Teller(ps.toolHint)
    ensures RunOneSubtask(reg, i, ps, Meets(ps, fate)) == Settles(Fated(i, ps, fate))
  {
  }

  function FatedOutcomes(plan: seq<PlannedSubtask>, fates: seq<Fate>): (outcomes: seq<SubtaskOutcome>)
    requires |fates| == |plan|
    ensures |outcomes| == |plan|
    ensures forall i: nat :: i < |plan| ==> outcomes[i] == Fated(i, plan[i], fates[i])
  {
    seq(|plan|, (i: nat) requires i < |plan| == |fates| => Fated(i, plan[i], fates[i]))
  }

  function AllMeet(plan: seq<PlannedSubtask>, fates: seq<Fate>): nat -> Surroundings
    requires |fates| == |plan|
  {
    (i: nat) =>
      if i < |plan| == |fates| then Meets(plan[i], fates[i])
      else Surroundings(ChatReply([], 0.0), (_, _) => RaisesOther("down"))
  }

  /** For every plan, any assignment of fates is what its bodies come to in some surroundings. */
  lemma FatesAreProducible(plan: seq<PlannedSubtask>, fates: seq<Fate>)
    requires |fates| == |plan|
    ensures Producible(plan, FatedOutcomes(plan, fates))
  {
    TellersAreOk(plan);
    forall i: nat | i < |plan|
      ensures RunOneSubtask(Tellers(plan), i, plan[i], AllMeet(plan, fates)(i)) == Settles(Fated(i, plan[i], fates[i]))
    {
      BodyMeetsFate(Tellers(plan), i, plan[i], fates[i]);
    }
    assert Produces(Tellers(plan), plan, AllMeet(plan, fates), FatedOutcomes(plan, fates));
  }
}
