/** Outcome receipts: over every run a receipt seals the verdict of the validation that carries it. */
module Receipts {
  import opened Wrappers
  import opened Crds
  import opened Encodings
  import opened Pipeline
  import opened PipelineHistory

  predicate Sealed(cfg: Config, v: Validation) {
    var r := v.Status().receipt;
    r.Some? ==> r.value.blake3Hash == cfg.blake3Text(ReceiptText(PartsOf(v)))
  }

  ghost predicate AllSealed(cfg: Config, s: System) {
    forall n | n in s.c.validations :: Sealed(cfg, s.c.validations[n])
  }

  // A version of the object that shows the final phase shows all that the receipt is about
  lemma ObservedPartsAreFinal(observed: Validation, v: Validation)
    requires MayObserve(observed, v) && observed.Phase().Terminal()
    ensures PartsOf(observed) == PartsOf(v)
  {
  }

  lemma ContinueKeepsSeals(cfg: Config, s: System, k: string)
    requires HistoryOk(s) && AllSealed(cfg, s) && k in s.flights
    ensures AllSealed(cfg, ContinueFlight(s, k))
  {
    hide EventsOk, DispatchOk, EventsKnown, Shape, Edge, ContinueFlight, ValidationsOk, PartsOf;
    var f := s.flights[k];
    assert FlightOk(s.c, k, f);
    ContinuedValidations(s, k);
    if f.done == |f.plan.creates| && f.plan.next.Some? {
      assert Sealed(cfg, f.v);
      PatchKeepsSeal(cfg, k, f.v, f.plan);
    }
  }

  // No status is written over one that carries a receipt
  lemma PatchKeepsSeal(cfg: Config, n: string, v: Validation, p: Plan)
    requires PlanSound(n, v, p) && p.next.Some?
    ensures Sealed(cfg, v.(status := p.next))
  {
  }

  lemma StepKeepsSeals(cfg: Config, s: System, step: Step)
    requires HistoryOk(s) && AllSealed(cfg, s)
    ensures AllSealed(cfg, Next(cfg, s, step))
  {
    hide HistoryOk, ContinueFlight, PlanOf, TenantAfter, ScanJobNext, HandleDelivery, MayObserve, PartsOf;
    if step.Continue? && step.n in s.flights {
      ContinueKeepsSeals(cfg, s, step.n);
    }
    if step.AppendReceipt? && step.n in s.c.validations {
      var v := s.c.validations[step.n];
      if MayObserve(step.observed, v) && step.observed.Phase().Terminal() {
        ObservedPartsAreFinal(step.observed, v);
        SameParts(v, BuildReceipt(cfg, step.observed, step.now));
      }
    }
  }

  lemma SameParts(v: Validation, r: Receipt)
    ensures PartsOf(v.(status := Some(v.Status().(receipt := Some(r))))) == PartsOf(v)
  {
  }

  lemma {:induction false} SealsHold(cfg: Config, steps: seq<Step>)
    ensures AllSealed(cfg, Run(cfg, EMPTY_SYSTEM, steps))
  {
    hide HistoryOk, Next, Sealed;
    if steps != [] {
      HistoryHolds(cfg, steps[..|steps| - 1]);
      SealsHold(cfg, steps[..|steps| - 1]);
      StepKeepsSeals(cfg, Run(cfg, EMPTY_SYSTEM, steps[..|steps| - 1]), steps[|steps| - 1]);
    }
  }

  predicate BarFree(v: Validation) {
    Free('|', v.imageDigest) && Free('|', v.Status().evidenceHash.GetOr(""))
  }

  // Over every run, deletes and stale watch events included: where two validations carry the same receipt
  // hash, they are of the same service and image, and got the same verdict, severity and evidence hash
  lemma EqualReceiptsEqualOutcomes(cfg: Config, steps: seq<Step>, n: string, m: string)
    requires forall a, b :: cfg.blake3Text(a) == cfg.blake3Text(b) ==> a == b
    requires var c := Run(cfg, EMPTY_SYSTEM, steps).c;
             && n in c.validations && m in c.validations && BarFree(c.validations[n]) && BarFree(c.validations[m])
             && c.validations[n].Status().receipt.Some? && c.validations[m].Status().receipt.Some?
             && c.validations[n].Status().receipt.value.blake3Hash == c.validations[m].Status().receipt.value.blake3Hash
    ensures var c := Run(cfg, EMPTY_SYSTEM, steps).c;
            var v, w := c.validations[n], c.validations[m];
            && v.service == w.service && v.imageDigest == w.imageDigest && v.Phase() == w.Phase()
            && v.Status().evidenceHash == w.Status().evidenceHash
            && v.Status().gateDecision.Some? && w.Status().gateDecision.Some?
            && v.Status().gateDecision.value.verdict == w.Status().gateDecision.value.verdict
            && v.Status().gateDecision.value.severity == w.Status().gateDecision.value.severity
  {
    HistoryHolds(cfg, steps);
    SealsHold(cfg, steps);
    var c := Run(cfg, EMPTY_SYSTEM, steps).c;
    hide Run, FlightOk, EventsOk, EventsKnown, DispatchOk;
    var v, w := c.validations[n], c.validations[m];
    assert Shape(n, v) && Shape(m, w) && Sealed(cfg, v) && Sealed(cfg, w);
    SameTextSameOutcome(n, v, m, w);
  }

  lemma SameTextSameOutcome(n: string, v: Validation, m: string, w: Validation)
    requires Shape(n, v) && Shape(m, w) && BarFree(v) && BarFree(w)
    requires v.Status().receipt.Some? && w.Status().receipt.Some?
    requires ReceiptText(PartsOf(v)) == ReceiptText(PartsOf(w))
    ensures v.service == w.service && v.imageDigest == w.imageDigest && v.Phase() == w.Phase()
    ensures v.Status().evidenceHash == w.Status().evidenceHash
    ensures v.Status().gateDecision.Some? && w.Status().gateDecision.Some?
    ensures v.Status().gateDecision.value.verdict == w.Status().gateDecision.value.verdict
    ensures v.Status().gateDecision.value.severity == w.Status().gateDecision.value.severity
  {
    hide ReceiptText, ReadReceipt;
    ReceiptReadsBack(PartsOf(v));
    ReceiptReadsBack(PartsOf(w));
  }

  // Over every run, deletes and stale watch events included: the text a receipt hashes, spelled out
  lemma ReceiptsInPlainWords(cfg: Config, steps: seq<Step>, n: string)
    requires var c := Run(cfg, EMPTY_SYSTEM, steps).c;
             n in c.validations && c.validations[n].Status().receipt.Some?
    ensures var v := Run(cfg, EMPTY_SYSTEM, steps).c.validations[n];
            var st := v.Status();
            && (v.Phase() == Passed || v.Phase() == Phase.Failed)
            && st.gateDecision.Some? && st.evidenceHash.Some?
            && var verdict := if v.Phase() == Passed then "Passed" else "Failed";
               var severity := match st.gateDecision.value.severity
                 case Cosmetic => "Cosmetic" case Functional => "Functional" case Critical => "Critical";
               st.receipt.value.blake3Hash ==
               cfg.blake3Text(v.service + "|" + v.imageDigest + "|" + verdict + "|" + severity + "|" +
                 st.evidenceHash.value)
  {
    HistoryHolds(cfg, steps);
    SealsHold(cfg, steps);
    var c := Run(cfg, EMPTY_SYSTEM, steps).c;
    hide Run, FlightOk, EventsOk, EventsKnown, DispatchOk;
    assert Shape(n, c.validations[n]) && Sealed(cfg, c.validations[n]);
  }

  // A receipt is appended exactly when the delivered version has come to an end and shows none; it bears the time
  // of the append, and nothing else of the validation changes. A stale version may seal what is sealed already.
  lemma AppendedByObservation(cfg: Config, s: System, n: string, observed: Validation, now: Time)
    requires n in s.c.validations && MayObserve(observed, s.c.validations[n])
    ensures var t := Next(cfg, s, AppendReceipt(n, observed, now));
            if observed.Phase() in {Passed, Phase.Failed, Quarantined} && observed.Status().receipt.None? then
              && t == s.(c := s.c.(validations := t.c.validations))
              && t.c.validations.Keys == s.c.validations.Keys
              && (forall m | m in s.c.validations && m != n :: t.c.validations[m] == s.c.validations[m])
              && var st := t.c.validations[n].Status();
                 && st.receipt.Some? && st.receipt.value.signedAt == now
                 && t.c.validations[n] ==
                      s.c.validations[n].(status := Some(s.c.validations[n].Status().(receipt := st.receipt)))
            else t == s
  {
    hide ReceiptText, PartsOf;
    assert s.c.validations.Keys + {n} == s.c.validations.Keys;
  }
}
