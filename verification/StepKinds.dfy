/** The event kinds that count as steps pass through redaction unchanged, and nothing becomes one. */
module StepKinds {
  import opened Runs
  import opened Redaction
  import opened RedactionProofs

  lemma StepKindsArePlain(kind: string)
    requires IsStep(kind)
    ensures forall i | 0 <= i < |kind| :: !IsSpace(kind[i]) && kind[i] != 'k' && kind[i] != '['
  {
    if kind == "agent.step" {
    } else if kind == "step/start" {
    } else {
      assert kind == "dsh.step/start";
    }
  }

  lemma StepKindsSurviveRedaction(kind: string)
    ensures IsStep(RedactText(kind)) <==> IsStep(kind)
  {
    if IsStep(kind) {
      StepKindsArePlain(kind);
      PlainIsFixed(kind);
    }
    if IsStep(RedactText(kind)) {
      StepKindsArePlain(RedactText(kind));
      NoBracketUnchanged(kind);
    }
  }
}
