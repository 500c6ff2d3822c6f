/** A failing environment: every action on it takes the next choice, which says
    whether the action returns, fails, or never returns because the process died
    there, and how much of its durable effect landed before that. */
module Faults {
  datatype Reply = Returned | Failed | Died

  /** `effect` counts the durable boundaries the action got past; 0 is none. */
  datatype Choice = Choice(reply: Reply, effect: nat)

  type Choices = nat -> Choice

  /** An action with a single durable boundary took effect. */
  predicate Lands(c: Choice) { c.reply.Returned? || 0 < c.effect }

  /** Nothing fails. */
  ghost predicate Smooth(choices: Choices) { forall t :: choices(t).reply.Returned? }
}
