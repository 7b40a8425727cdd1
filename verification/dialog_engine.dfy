/**
 The table-driven dialog engine. A table maps state names to state
 definitions; each definition may carry a prompt, a context key under which
 the user's answer is saved, a map from intents to target states, and a
 default next state. A step saves the answer, moves to the next state and
 answers with that state's prompt.

 Looking up a state that is not in the table fails in the source; here the
 lookups a step makes are preconditions.
 */
module Dialog {
  import opened Optional

  const StartState: string := "START"

  datatype StateDef = StateDef(
    prompt: Option<string>,
    save: Option<string>,
    onIntent: Option<map<string, string>>,
    next: Option<string>
  )

  datatype Engine = Engine(states: map<string, StateDef>, currentState: string, context: map<string, string>)

  datatype StepResult = StepResult(engine: Engine, reply: string)

  /** An absent value and the empty string both count as "no input". */
  predicate Given(s: Option<string>)
  {
    s.Some? && |s.value| > 0
  }

  /** Every state the definition can lead to is a state of the table. */
  ghost predicate TargetsDefined(def: StateDef, states: map<string, StateDef>)
  {
    && (def.next.Some? ==> def.next.value in states)
    && (def.onIntent.Some? ==> forall i :: i in def.onIntent.value ==> def.onIntent.value[i] in states)
  }

  /** No state of the table leads outside the table. */
  ghost predicate ClosedTable(states: map<string, StateDef>)
  {
    forall s :: s in states ==> TargetsDefined(states[s], states)
  }

  /** A fresh engine starts in the start state with an empty context and the given table. */
  function NewEngine(states: map<string, StateDef>): (e: Engine)
    ensures e.currentState == StartState
    ensures e.context == map[]
    ensures e.states == states
  {
    Engine(states, StartState, map[])
  }

  /**
   The current state's prompt, or the empty string when it has none or
   its prompt is empty.
   */
  function GetPrompt(e: Engine): (r: string)
    requires e.currentState in e.states
    ensures r == "" <==> e.states[e.currentState].prompt in {None, Some("")}
    ensures r != "" ==> e.states[e.currentState].prompt == Some(r)
  {
    match e.states[e.currentState].prompt
    case Some(p) => p
    case None => ""
  }

  /** The state a step moves to: along the intent map when an intent is given and mapped, else the default. */
  function NextStateName(e: Engine, intent: Option<string>): string
    requires e.currentState in e.states
  {
    var def := e.states[e.currentState];
    if Given(intent) && def.onIntent.Some? then
      (if intent.value in def.onIntent.value then def.onIntent.value[intent.value] else e.currentState)
    else if def.next.Some? then
      def.next.value
    else
      e.currentState
  }

  /**
   One step. The answer is saved under the current state's key when both
   exist; an intent moves along the current state's intent map when the
   state has one (staying put for an unmapped intent); otherwise the
   default next state is taken when there is one.
   */
  function Step(e: Engine, userInput: Option<string>, intent: Option<string>): (r: StepResult)
    requires e.currentState in e.states
    requires NextStateName(e, intent) in e.states
    ensures r.engine.states == e.states
    ensures r.engine.currentState in e.states
    ensures var def := e.states[e.currentState];
            && (Given(userInput) && def.save.Some? ==>
                  && def.save.value in r.engine.context
                  && r.engine.context[def.save.value] == userInput.value
                  && forall k :: k != def.save.value ==>
                       (k in r.engine.context <==> k in e.context) && (k in e.context ==> r.engine.context[k] == e.context[k]))
            && (!(Given(userInput) && def.save.Some?) ==> r.engine.context == e.context)
    ensures var def := e.states[e.currentState];
            && (Given(intent) && def.onIntent.Some? ==>
                  if intent.value in def.onIntent.value then r.engine.currentState == def.onIntent.value[intent.value]
                  else r.engine.currentState == e.currentState)
            && (!(Given(intent) && def.onIntent.Some?) && def.next.Some? ==> r.engine.currentState == def.next.value)
            && (!(Given(intent) && def.onIntent.Some?) && def.next.None? ==> r.engine.currentState == e.currentState)
    ensures var prompt := e.states[r.engine.currentState].prompt;
            r.reply == if prompt.Some? then prompt.value else ""
  {
    var def := e.states[e.currentState];
    var context := if Given(userInput) && def.save.Some? then e.context[def.save.value := userInput.value] else e.context;
    var e' := Engine(e.states, NextStateName(e, intent), context);
    StepResult(e', GetPrompt(e'))
  }

  /** The prompt depends on the table and the current state only, never on the context. */
  lemma PromptIgnoresContext(e: Engine, context: map<string, string>)
    requires e.currentState in e.states
    ensures GetPrompt(e.(context := context)) == GetPrompt(e)
  {
  }

  /** A step answers with the prompt of the state it has moved to, as a later `GetPrompt` would. */
  lemma StepRepliesWithPrompt(e: Engine, userInput: Option<string>, intent: Option<string>)
    requires e.currentState in e.states
    requires NextStateName(e, intent) in e.states
    ensures var r := Step(e, userInput, intent);
            r.reply == GetPrompt(r.engine)
  {
  }

  /**
   With a closed table, a step from any state of the table lands on a
   state of the table again, so every later step's preconditions hold as
   well.
   */
  lemma StepStaysInClosedTable(e: Engine, userInput: Option<string>, intent: Option<string>)
    requires ClosedTable(e.states)
    requires e.currentState in e.states
    ensures NextStateName(e, intent) in e.states
    ensures var r := Step(e, userInput, intent);
            forall intent' :: NextStateName(r.engine, intent') in r.engine.states
  {
    var r := Step(e, userInput, intent);
    assert TargetsDefined(r.engine.states[r.engine.currentState], r.engine.states);
  }
}
