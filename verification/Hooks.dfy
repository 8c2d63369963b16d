/** Hook outputs: which are accepted, and the permission decision that a list of them makes. */
module Hooks {
  import opened Common
  import opened Trace
  import Permission

  /***** validateHookOutputs *****/

  predicate Supported(o: HookOutput) {
    match o
    case Async => false
    case Other => true
    case Sync(suppress, stopReason, systemMessage, continues, _) =>
      !suppress && !stopReason && !systemMessage && continues != Some(false)
  }

  predicate AllSupported(outputs: seq<HookOutput>) { forall i :: 0 <= i < |outputs| ==> Supported(outputs[i]) }

  method ValidateHookOutputs(outputs: seq<HookOutput>) returns (ok: bool)
    ensures ok <==> AllSupported(outputs)
    ensures ok <==> forall k :: 0 <= k < |outputs| ==>
              !outputs[k].Async? &&
              (outputs[k].Sync? ==>
                 !outputs[k].suppress && !outputs[k].stopReason && !outputs[k].systemMessage && outputs[k].continues != Some(false))
  {
    for k := 0 to |outputs|
      invariant AllSupported(outputs[..k])
    {
      var out := outputs[k];
      if out.Async? { return false; }
      if out.Sync? {
        if out.suppress { return false; }
        if out.stopReason { return false; }
        if out.systemMessage { return false; }
        if out.continues == Some(false) { return false; }
      }
      assert outputs[..k + 1] == outputs[..k] + [out];
    }
    assert outputs[..|outputs|] == outputs;
    return true;
  }

  /***** permissionDecisionFromHookOutputs *****/

  datatype Verdict = Verdict(deny: bool, message: string, interrupt: bool, input: string, updates: Updates, suggestions: Updates)

  function DecisionOf(o: HookOutput): Option<Decision> { if o.Sync? then o.decision else None }

  function Denying(d: Decision): bool { d.behavior == Some(Permission.DENY) }

  /** Denying is sticky: one output that denies is enough, wherever it stands. */
  predicate Denied(outputs: seq<HookOutput>) {
    exists i :: 0 <= i < |outputs| && DecisionOf(outputs[i]).Some? && Denying(DecisionOf(outputs[i]).value)
  }

  /** Everything else is taken from the last output that has it. */
  function LastOf<T>(outputs: seq<HookOutput>, field: Decision -> Option<T>, default: T): T {
    if outputs == [] then default
    else
      var d := DecisionOf(outputs[|outputs| - 1]);
      if d.Some? && field(d.value).Some? then field(d.value).value
      else LastOf(outputs[..|outputs| - 1], field, default)
  }

  function MessageOf(d: Decision): Option<string> { if d.message == Some("") then None else d.message }

  function InterruptOf(d: Decision): Option<bool> { d.interrupt }

  function InputOf(d: Decision): Option<string> { d.input }

  function UpdatesOf(d: Decision): Option<Updates> { d.updates }

  function SuggestionsOf(d: Decision): Option<Updates> { d.suggestions }

  function VerdictOf(outputs: seq<HookOutput>, given: string): Verdict {
    Verdict(Denied(outputs), LastOf(outputs, MessageOf, ""), LastOf(outputs, InterruptOf, false),
            LastOf(outputs, InputOf, given), LastOf(outputs, UpdatesOf, []), LastOf(outputs, SuggestionsOf, []))
  }

  lemma DeniedStep(outputs: seq<HookOutput>, o: HookOutput)
    ensures Denied(outputs + [o]) <==> Denied(outputs) || (DecisionOf(o).Some? && Denying(DecisionOf(o).value))
  {
    var all := outputs + [o];
    forall i | 0 <= i < |outputs| ensures all[i] == outputs[i] {}
    assert all[|outputs|] == o;
    if Denied(outputs) {
      var i :| 0 <= i < |outputs| && DecisionOf(outputs[i]).Some? && Denying(DecisionOf(outputs[i]).value);
      assert all[i] == outputs[i];
    }
  }

  lemma LastOfStep<T>(outputs: seq<HookOutput>, o: HookOutput, field: Decision -> Option<T>, default: T)
    ensures LastOf(outputs + [o], field, default) ==
      var d := DecisionOf(o);
      if d.Some? && field(d.value).Some? then field(d.value).value else LastOf(outputs, field, default)
  {
    assert (outputs + [o])[..|outputs|] == outputs;
  }

  function Merge(v: Verdict, d: Decision): Verdict {
    Verdict(v.deny || Denying(d),
            if MessageOf(d).Some? then MessageOf(d).value else v.message,
            if d.interrupt.Some? then d.interrupt.value else v.interrupt,
            if d.input.Some? then d.input.value else v.input,
            if d.updates.Some? then d.updates.value else v.updates,
            if d.suggestions.Some? then d.suggestions.value else v.suggestions)
  }

  lemma VerdictStep(outputs: seq<HookOutput>, o: HookOutput, given: string)
    ensures VerdictOf(outputs + [o], given) ==
      var v := VerdictOf(outputs, given);
      if DecisionOf(o).Some? then Merge(v, DecisionOf(o).value) else v
  {
    DeniedStep(outputs, o);
    LastOfStep(outputs, o, MessageOf, "");
    LastOfStep(outputs, o, InterruptOf, false);
    LastOfStep(outputs, o, InputOf, given);
    LastOfStep(outputs, o, UpdatesOf, []);
    LastOfStep(outputs, o, SuggestionsOf, []);
  }

  /** One output that carries a decision. */
  method MergeDecision(before: Verdict, d: Decision) returns (v: Verdict)
    ensures v == Merge(before, d)
  {
    v := before;
    if d.behavior.Some? && d.behavior.value == Permission.DENY { v := v.(deny := true); }
    if d.message.Some? && d.message.value != "" { v := v.(message := d.message.value); }
    if d.interrupt.Some? { v := v.(interrupt := d.interrupt.value); }
    if d.input.Some? { v := v.(input := d.input.value); }
    if d.updates.Some? { v := v.(updates := d.updates.value); }
    if d.suggestions.Some? { v := v.(suggestions := d.suggestions.value); }
  }

  method Decide(outputs: seq<HookOutput>, given: string) returns (v: Verdict)
    ensures v == VerdictOf(outputs, given)
  {
    v := Verdict(false, "", false, given, [], []);
    for k := 0 to |outputs|
      invariant v == VerdictOf(outputs[..k], given)
    {
      assert outputs[..k + 1] == outputs[..k] + [outputs[k]];
      VerdictStep(outputs[..k], outputs[k], given);
      if outputs[k].Sync? && outputs[k].decision.Some? { v := MergeDecision(v, outputs[k].decision.value); }
    }
    assert outputs[..|outputs|] == outputs;
  }

  /***** What a verdict says, in terms of the outputs *****/

  datatype Part = OfMessage | OfInterrupt | OfInput | OfUpdates | OfSuggestions

  /** An output has something to say on this part; an empty message says nothing. */
  predicate Gives(o: HookOutput, part: Part) {
    o.Sync? && o.decision.Some? &&
    match part
    case OfMessage => o.decision.value.message.Some? && o.decision.value.message.value != ""
    case OfInterrupt => o.decision.value.interrupt.Some?
    case OfInput => o.decision.value.input.Some?
    case OfUpdates => o.decision.value.updates.Some?
    case OfSuggestions => o.decision.value.suggestions.Some?
  }

  /** Output `k` is the last that does. */
  ghost predicate GivesLast(outputs: seq<HookOutput>, k: nat, part: Part) {
    k < |outputs| && Gives(outputs[k], part) && forall j :: k < j < |outputs| ==> !Gives(outputs[j], part)
  }

  ghost predicate Silent(outputs: seq<HookOutput>, part: Part) { forall j :: 0 <= j < |outputs| ==> !Gives(outputs[j], part) }

  lemma {:induction false} LastOfIs<T>(outputs: seq<HookOutput>, k: nat, part: Part, field: Decision -> Option<T>, default: T)
    requires forall o: HookOutput :: Gives(o, part) <==> o.Sync? && o.decision.Some? && field(o.decision.value).Some?
    ensures GivesLast(outputs, k, part) ==> LastOf(outputs, field, default) == field(outputs[k].decision.value).value
    ensures Silent(outputs, part) ==> LastOf(outputs, field, default) == default
  {
    hide Gives;
    if outputs != [] {
      var front, last := outputs[..|outputs| - 1], outputs[|outputs| - 1];
      LastOfIs(front, k, part, field, default);
      assert Gives(last, part) <==> last.Sync? && last.decision.Some? && field(last.decision.value).Some?;
    }
  }

  /**
   * A list of outputs denies if and only if one of them has the behaviour "deny". Message, interruption,
   * input, updates and suggestions are each those of the last output that gives one; where none does,
   * there is no message and no interruption, the input stays, and nothing is updated or suggested.
   */
  lemma VerdictMeans(outputs: seq<HookOutput>, given: string, k: nat)
    ensures var v := VerdictOf(outputs, given);
      && (v.deny <==> exists i :: 0 <= i < |outputs| && outputs[i].Sync? && outputs[i].decision.Some? &&
                                  outputs[i].decision.value.behavior == Some("deny"))
      && (GivesLast(outputs, k, OfMessage) ==> v.message == outputs[k].decision.value.message.value)
      && (GivesLast(outputs, k, OfInterrupt) ==> v.interrupt == outputs[k].decision.value.interrupt.value)
      && (GivesLast(outputs, k, OfInput) ==> v.input == outputs[k].decision.value.input.value)
      && (GivesLast(outputs, k, OfUpdates) ==> v.updates == outputs[k].decision.value.updates.value)
      && (GivesLast(outputs, k, OfSuggestions) ==> v.suggestions == outputs[k].decision.value.suggestions.value)
      && (Silent(outputs, OfMessage) ==> v.message == "") && (Silent(outputs, OfInterrupt) ==> !v.interrupt)
      && (Silent(outputs, OfInput) ==> v.input == given)
      && (Silent(outputs, OfUpdates) ==> v.updates == []) && (Silent(outputs, OfSuggestions) ==> v.suggestions == [])
  {
    hide GivesLast, Silent;
    LastOfIs(outputs, k, OfMessage, MessageOf, "");
    LastOfIs(outputs, k, OfInterrupt, InterruptOf, false);
    LastOfIs(outputs, k, OfInput, InputOf, given);
    LastOfIs(outputs, k, OfUpdates, UpdatesOf, []);
    LastOfIs(outputs, k, OfSuggestions, SuggestionsOf, []);
    PlacesOf(outputs, k);
  }

  lemma PlacesOf(outputs: seq<HookOutput>, k: nat)
    ensures forall part :: GivesLast(outputs, k, part) ==> k < |outputs| && Gives(outputs[k], part)
  {
  }
}
