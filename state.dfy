/**
 * The conversation state threaded through the workflow, and the rule by which a
 * step's update is merged into it. Only `retrieved_context` has a reducer (list
 * concatenation); the other fields are replaced by an update that carries them.
 */
module State {
  import opened Wrappers

  /** One retrieved fact bundle: a `{"role", "content", "tool_call_id"}` dictionary. */
  datatype ContextItem = ContextItem(role: string, content: string, toolCallId: string)

  /**
   * `ConversationState`. The route decision is kept as the string the supervisor
   * writes into it.
   */
  datatype ConversationState = ConversationState(
    userQuestion: string,
    currentRouteDecision: Option<string>,
    retrievedContext: seq<ContextItem>,
    finalAnswer: Option<string>)

  /** A state built from the one required field; every other field takes its default. */
  function Initial(question: string): (s: ConversationState)
    ensures s.userQuestion == question
    ensures s.currentRouteDecision == None && s.retrievedContext == [] && s.finalAnswer == None
  {
    ConversationState(question, None, [], None)
  }

  /** The reducer of `retrieved_context`, `operator.add` on lists. */
  function AddContext(existing: seq<ContextItem>, incoming: seq<ContextItem>): (r: seq<ContextItem>)
    ensures |r| == |existing| + |incoming|
    ensures r[..|existing|] == existing
    ensures r[|existing|..] == incoming
  {
    existing + incoming
  }

  /**
   * A step's update: the fields it names, each `None` when the update dictionary
   * does not carry that key. No step updates `user_question`.
   */
  datatype StateUpdate = StateUpdate(
    currentRouteDecision: Option<string>,
    retrievedContext: Option<seq<ContextItem>>,
    finalAnswer: Option<string>)

  /** An update that sets only `retrieved_context`. */
  function ContextUpdate(items: seq<ContextItem>): (u: StateUpdate)
    ensures u.retrievedContext == Some(items)
    ensures u.currentRouteDecision.None? && u.finalAnswer.None?
  {
    StateUpdate(None, Some(items), None)
  }

  /** Merging one update: the reducer for the context, replacement for the rest. */
  function ApplyUpdate(s: ConversationState, u: StateUpdate): (r: ConversationState)
    ensures r.userQuestion == s.userQuestion
    ensures r.currentRouteDecision == if u.currentRouteDecision.Some? then u.currentRouteDecision else s.currentRouteDecision
    ensures r.finalAnswer == if u.finalAnswer.Some? then u.finalAnswer else s.finalAnswer
    ensures r.retrievedContext == if u.retrievedContext.Some? then AddContext(s.retrievedContext, u.retrievedContext.value) else s.retrievedContext
  {
    ConversationState(
      s.userQuestion,
      if u.currentRouteDecision.Some? then u.currentRouteDecision else s.currentRouteDecision,
      if u.retrievedContext.Some? then AddContext(s.retrievedContext, u.retrievedContext.value) else s.retrievedContext,
      if u.finalAnswer.Some? then u.finalAnswer else s.finalAnswer)
  }

  /** Several updates merged one after the other. */
  function ApplyAll(s: ConversationState, us: seq<StateUpdate>): (r: ConversationState)
    ensures r.userQuestion == s.userQuestion
    decreases |us|
  {
    if us == [] then s else ApplyAll(ApplyUpdate(s, us[0]), us[1..])
  }

  /** The context items a sequence of updates contributes, in order. */
  function Contributed(us: seq<StateUpdate>): seq<ContextItem>
    decreases |us|
  {
    if us == [] then []
    else us[0].retrievedContext.GetOr([]) + Contributed(us[1..])
  }

  /** Merging an empty list into the context leaves the state unchanged. */
  lemma MergeEmptyContext(s: ConversationState)
    ensures ApplyUpdate(s, ContextUpdate([])) == s
  {
    assert s.retrievedContext + [] == s.retrievedContext;
  }

  /**
   * After any sequence of merges the context is the old context followed by every
   * update's items in order: it never shrinks, and existing items keep their place.
   */
  lemma {:induction false} ApplyAllContext(s: ConversationState, us: seq<StateUpdate>)
    ensures ApplyAll(s, us).retrievedContext == s.retrievedContext + Contributed(us)
    ensures |ApplyAll(s, us).retrievedContext| >= |s.retrievedContext|
    decreases |us|
  {
    if us == [] {
      assert s.retrievedContext + [] == s.retrievedContext;
    } else {
      var t := ApplyUpdate(s, us[0]);
      var head, rest := us[0].retrievedContext.GetOr([]), Contributed(us[1..]);
      ApplyAllContext(t, us[1..]);
      assert t.retrievedContext == s.retrievedContext + head;
      assert ApplyAll(s, us) == ApplyAll(t, us[1..]);
      assert Contributed(us) == head + rest;
      assert (s.retrievedContext + head) + rest == s.retrievedContext + (head + rest);
    }
  }

  /** Updates that carry neither scalar field leave both scalars as they were. */
  lemma {:induction false} ApplyAllKeepsScalars(s: ConversationState, us: seq<StateUpdate>)
    requires forall i :: 0 <= i < |us| ==> us[i].currentRouteDecision.None? && us[i].finalAnswer.None?
    ensures ApplyAll(s, us).currentRouteDecision == s.currentRouteDecision
    ensures ApplyAll(s, us).finalAnswer == s.finalAnswer
    decreases |us|
  {
    if us != [] {
      ApplyAllKeepsScalars(ApplyUpdate(s, us[0]), us[1..]);
    }
  }

  /**
   * Two updates of one item each, merged in either order: both items land, after the
   * existing context, and the two orders hold the same items.
   */
  lemma FanOutLosesNothing(s: ConversationState, x: ContextItem, y: ContextItem)
    ensures ApplyAll(s, [ContextUpdate([x]), ContextUpdate([y])]).retrievedContext == s.retrievedContext + [x, y]
    ensures ApplyAll(s, [ContextUpdate([y]), ContextUpdate([x])]).retrievedContext == s.retrievedContext + [y, x]
    ensures multiset(ApplyAll(s, [ContextUpdate([x]), ContextUpdate([y])]).retrievedContext)
         == multiset(ApplyAll(s, [ContextUpdate([y]), ContextUpdate([x])]).retrievedContext)
  {
    MergePair(s, x, y);
    MergePair(s, y, x);
    assert multiset(s.retrievedContext + [x, y]) == multiset(s.retrievedContext + [y, x]);
  }

  /** Two one-item updates merged in a row append both items, in that order, and change nothing else. */
  lemma MergePair(s: ConversationState, x: ContextItem, y: ContextItem)
    ensures ApplyAll(s, [ContextUpdate([x]), ContextUpdate([y])]) == s.(retrievedContext := s.retrievedContext + [x, y])
  {
    var ux, uy := ContextUpdate([x]), ContextUpdate([y]);
    var t1 := s.(retrievedContext := s.retrievedContext + [x]);
    var t2 := t1.(retrievedContext := t1.retrievedContext + [y]);
    assert ApplyUpdate(s, ux) == t1;
    assert ApplyUpdate(t1, uy) == t2;
    assert [ux, uy][1..] == [uy] && [uy][1..] == [];
    assert ApplyAll(t1, [uy]) == t2;
    assert t2.retrievedContext == s.retrievedContext + [x, y];
  }

  lemma ContributedPair(u: StateUpdate, v: StateUpdate)
    ensures Contributed([u, v]) == u.retrievedContext.GetOr([]) + v.retrievedContext.GetOr([])
  {
    assert [u, v][1..] == [v];
    assert [v][1..] == [];
    assert Contributed([v]) == v.retrievedContext.GetOr([]) + Contributed([]);
    assert v.retrievedContext.GetOr([]) + [] == v.retrievedContext.GetOr([]);
    assert Contributed([u, v]) == u.retrievedContext.GetOr([]) + Contributed([v]);
  }

  /**
   * The Python object a step is handed. Its fields can be reassigned in place, which
   * the supervisor does with the route decision.
   */
  class StateInstance {
    var value: ConversationState

    constructor (s: ConversationState)
      ensures value == s
    {
      value := s;
    }
  }
}
