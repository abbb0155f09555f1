/** The full story of a validation against the part of it that was published. */
module EventStory {
  import opened Wrappers
  import opened Crds
  import opened Subsequences
  import opened Pipeline
  import opened PipelineHistory

  // What a step announces: the events of the status write it performs, whether or not they ever arrive
  function Announced(s: System, step: Step): seq<Event> {
    if step.Continue? && step.n in s.flights then
      var f := s.flights[step.n];
      if f.done == |f.plan.creates| && f.plan.next.Some? then Emitted(f.v, f.plan.next.value) else []
    else []
  }

  // Everything announced over a run
  function FullStory(cfg: Config, steps: seq<Step>): seq<Event> {
    if steps == [] then []
    else
      var n := |steps| - 1;
      FullStory(cfg, steps[..n]) + Announced(Run(cfg, EMPTY_SYSTEM, steps[..n]), steps[n])
  }

  // Published, or about to be
  function Heard(s: System, n: string): seq<Event>
    requires n in s.c.validations
  {
    EventsFor(s.c.events, s.c.validations[n].uid) + if n in s.flights then Due(s.flights[n]) else []
  }

  ghost predicate StoryOf(s: System, story: seq<Event>, n: string)
    requires n in s.c.validations
  {
    var full := EventsFor(story, s.c.validations[n].uid);
    && Tells(full, s.c.validations[n])
    && Subsequence(Heard(s, n), full)
    && (n in s.lost <==> |Heard(s, n)| < |full|)
  }

  ghost predicate StoryOk(s: System, story: seq<Event>) {
    && EventsKnown(s.c.validations, story)
    && forall n | n in s.c.validations :: StoryOf(s, story, n)
  }

  lemma {:induction false} EventsForConcat(a: seq<Event>, b: seq<Event>, uid: string)
    ensures EventsFor(a + b, uid) == EventsFor(a, uid) + EventsFor(b, uid)
  {
    if b == [] {
      assert a + b == a && EventsFor(b, uid) == [];
      assert EventsFor(a, uid) + [] == EventsFor(a, uid);
    } else {
      var n := |b| - 1;
      EventsForConcat(a, b[..n], uid);
      assert a + b == (a + b[..n]) + [b[n]] && b == b[..n] + [b[n]];
      EventsForAppend(a + b[..n], b[n], uid);
      EventsForAppend(b[..n], b[n], uid);
    }
  }

  lemma {:induction false} OwnEvents(events: seq<Event>, uid: string)
    requires forall i | 0 <= i < |events| :: RunOf(events[i]) == uid
    ensures EventsFor(events, uid) == events
  {
    if events != [] {
      var n := |events| - 1;
      OwnEvents(events[..n], uid);
      assert events == events[..n] + [events[n]];
    }
  }

  lemma EmittedIsOwn(v: Validation, next: ValidationStatus, uid: string)
    ensures EventsFor(Emitted(v, next), uid) == if uid == v.uid then Emitted(v, next) else []
  {
    EmittedNamesTheRun(v, next);
    if uid == v.uid {
      OwnEvents(Emitted(v, next), uid);
    } else {
      forall e | e in Emitted(v, next) ensures RunOf(e) != uid {
        var i :| 0 <= i < |Emitted(v, next)| && Emitted(v, next)[i] == e;
      }
      NoEventsFor(Emitted(v, next), uid);
    }
  }

  // ---- Steps ----

  // A step that announces nothing: n may grow, and of what was heard the same or less is left, less exactly if n
  // lost something
  lemma StoryFrame(s: System, t: System, story: seq<Event>, n: string)
    requires n in s.c.validations && n in t.c.validations && StoryOf(s, story, n)
    requires t.c.validations[n].uid == s.c.validations[n].uid
    requires forall events :: Tells(events, s.c.validations[n]) ==> Tells(events, t.c.validations[n])
    requires Heard(t, n) == Heard(s, n) ==> (n in t.lost <==> n in s.lost)
    requires Heard(t, n) != Heard(s, n) ==>
               n in t.lost && |Heard(t, n)| < |Heard(s, n)| && Subsequence(Heard(t, n), Heard(s, n))
    ensures StoryOf(t, story, n)
  {
    hide Tells, EventsFor, Heard, Subsequence;
    var full := EventsFor(story, s.c.validations[n].uid);
    if Heard(t, n) == Heard(s, n) {
      SubsequenceRefl(Heard(s, n));
    }
    SubsequenceTrans(Heard(t, n), Heard(s, n), full);
    SubsequenceSize(Heard(s, n), full);
  }

  lemma PatchStory(s: System, t: System, story: seq<Event>, n: string)
    requires HistoryOk(s) && n in s.flights && n in s.c.validations && StoryOf(s, story, n)
    requires s.flights[n].done == |s.flights[n].plan.creates| && s.flights[n].plan.next.Some? &&
             t == ContinueFlight(s, n)
    ensures n in t.c.validations && StoryOf(t, story + Announced(s, Continue(n)), n)
  {
    hide Tells, EventsFor, Subsequence, EventsKnown, DispatchOk, EventsOk, Shape, Edge, Emitted, Grows, ValidationsOk;
    var f := s.flights[n];
    var next := f.plan.next.value;
    assert FlightOk(s.c, n, f);
    ContinuedValidations(s, n);
    var uid, all := f.v.uid, Emitted(f.v, next);
    var full := EventsFor(story, uid);
    EventsForConcat(story, all, uid);
    EmittedIsOwn(f.v, next, uid);
    PatchEvents(s, n);
    GrownWriteOnce(f.v, f.v.(status := f.plan.next));
    EmittedTells(full, f.v, next);
    SubsequenceRefl(all);
    SubsequenceConcat(Heard(s, n), full, all, all);
    NothingDue(f);
    assert Due(t.flights[n]) == all[0..] == all;
    assert Heard(s, n) == EventsFor(s.c.events, uid) + [] == EventsFor(s.c.events, uid);
    assert Heard(t, n) == Heard(s, n) + all;
  }

  lemma GrownWriteOnce(a: Validation, b: Validation)
    requires Grows(a, b)
    ensures WriteOnce(a.Status(), b.Status())
  {
  }

  lemma PatchEvents(s: System, n: string)
    requires n in s.flights && s.flights[n].done == |s.flights[n].plan.creates| && s.flights[n].plan.next.Some?
    ensures var f, t := s.flights[n], ContinueFlight(s, n);
            t.c.events == s.c.events && t.lost == s.lost && t.flights == s.flights[n := f.(done := f.done + 1)]
  {
    hide Emitted;
  }

  // The events another validation announces are none of n's
  lemma OtherPatchStory(s: System, t: System, story: seq<Event>, k: string, n: string)
    requires HistoryOk(s) && k in s.flights && n in s.c.validations && n != k && StoryOf(s, story, n)
    requires s.flights[k].done == |s.flights[k].plan.creates| && s.flights[k].plan.next.Some? &&
             t == ContinueFlight(s, k)
    ensures n in t.c.validations && StoryOf(t, story + Announced(s, Continue(k)), n)
  {
    hide Tells, EventsFor, Subsequence, EventsKnown, DispatchOk, EventsOk, Shape, Edge, Emitted, Grows, Due;
    var f := s.flights[k];
    assert FlightOk(s.c, k, f);
    ContinuedValidations(s, k);
    PatchEvents(s, k);
    var uid := s.c.validations[n].uid;
    EventsForConcat(story, Emitted(f.v, f.plan.next.value), uid);
    EmittedIsOwn(f.v, f.plan.next.value, uid);
    assert EventsFor(story, uid) + [] == EventsFor(story, uid);
  }

  // Publishing moves an event from due to heard
  lemma PublishHeard(s: System, k: string, n: string)
    requires HistoryOk(s) && k in s.flights && s.flights[k].Patched() && !s.flights[k].Over() && n in s.c.validations
    ensures var t := ContinueFlight(s, k);
            t.c.validations == s.c.validations && t.lost == s.lost && Heard(t, n) == Heard(s, n)
  {
    hide EventsFor, Tells, EventsKnown, DispatchOk, EventsOk, Shape, Edge, Grows, Due, EffectAt, EffectCount, PlanSound;
    var f, t := s.flights[k], ContinueFlight(s, k);
    assert FlightOk(s.c, k, f);
    NextDue(f);
    var e := EffectAt(f.plan, f.v, f.done).event;
    var uid := s.c.validations[n].uid;
    EventsForAppend(s.c.events, e, uid);
    if n == k {
      assert (EventsFor(s.c.events, uid) + [e]) + Due(t.flights[n]) == EventsFor(s.c.events, uid) + Due(f);
    } else {
      assert EventsFor(s.c.events, uid) + [] == EventsFor(s.c.events, uid);
    }
  }

  lemma QuietHeard(s: System, k: string, n: string)
    requires HistoryOk(s) && k in s.flights && n in s.c.validations
    requires s.flights[k].Over() || s.flights[k].done < |s.flights[k].plan.creates|
    ensures var t := ContinueFlight(s, k);
            t.c.validations == s.c.validations && t.lost == s.lost && Heard(t, n) == Heard(s, n)
  {
    hide EventsFor, Tells, EventsKnown, DispatchOk, EventsOk, Shape, Edge, Grows, Emitted, ValidationsOk;
    var f := s.flights[k];
    assert FlightOk(s.c, k, f);
    if f.Over() {
      NothingDue(f);
    } else {
      assert EffectAt(f.plan, f.v, f.done) == f.plan.creates[f.done];
    }
  }

  // A kill or a dropped event takes events off, if any were due
  lemma LossHeard(s: System, k: string, n: string, drops: bool)
    requires k in s.flights && n in s.c.validations
    ensures var t := if drops then DropFlight(s, k) else CrashFlight(s, k);
            && t.c == s.c
            && (Heard(t, n) == Heard(s, n) ==> (n in t.lost <==> n in s.lost))
            && (Heard(t, n) != Heard(s, n) ==>
                  n in t.lost && |Heard(t, n)| < |Heard(s, n)| && Subsequence(Heard(t, n), Heard(s, n)))
  {
    hide EventsFor, Due, EffectCount, Subsequence;
    var f, t := s.flights[k], if drops then DropFlight(s, k) else CrashFlight(s, k);
    if n == k {
      var events := EventsFor(s.c.events, s.c.validations[n].uid);
      assert t.flights == s.flights || !drops ==> (n in t.flights ==> t.flights[n] == f);
      LessDue(f);
      SubsequenceRefl(events);
      var rest := if n in t.flights then Due(t.flights[n]) else [];
      SubsequenceConcat(events, events, rest, Due(f));
    }
  }

  lemma LessDue(f: Flight)
    ensures (f.Patched() && !f.Over()) <==> Due(f) != []
    ensures Subsequence([], Due(f)) && Subsequence(Due(f), Due(f))
    ensures f.Patched() && !f.Over() ==>
              var rest := Due(f.(done := f.done + 1));
              |Due(f)| == |rest| + 1 && Subsequence(rest, Due(f))
  {
    SubsequenceRefl(Due(f));
    if f.Patched() && !f.Over() {
      NextDue(f);
      var rest := Due(f.(done := f.done + 1));
      SubsequenceRefl(rest);
      assert Due(f)[1..] == rest;
      SubsequenceSkip(rest, Due(f));
    }
  }

  lemma ContinueStory(s: System, story: seq<Event>, k: string, n: string)
    requires HistoryOk(s) && StoryOk(s, story) && k in s.flights && n in s.c.validations
    ensures n in ContinueFlight(s, k).c.validations
    ensures StoryOf(ContinueFlight(s, k), story + Announced(s, Continue(k)), n)
  {
    hide HistoryOk, ContinueFlight, EventsKnown, StoryOf, Heard;
    var f, t := s.flights[k], ContinueFlight(s, k);
    assert StoryOf(s, story, n);
    if f.done == |f.plan.creates| && f.plan.next.Some? {
      if n == k { PatchStory(s, t, story, n); } else { OtherPatchStory(s, t, story, k, n); }
    } else {
      assert story + [] == story;
      if f.Patched() && !f.Over() { PublishHeard(s, k, n); } else { QuietHeard(s, k, n); }
      StoryFrame(s, t, story, n);
    }
  }

  lemma ReceiptStory(cfg: Config, s: System, story: seq<Event>, step: Step, n: string)
    requires HistoryOk(s) && step.AppendReceipt? && n in s.c.validations && StoryOf(s, story, n)
    ensures n in Next(cfg, s, step).c.validations && StoryOf(Next(cfg, s, step), story, n)
  {
    hide Tells, EventsFor, Due, BuildReceipt, StoryOf, MayObserve, FlightOk, EventsOk, EventsKnown, DispatchOk, Shape;
    var t := Next(cfg, s, step);
    if t != s && step.n == n {
      assert Shape(n, s.c.validations[n]);
      FinalVersionMeansFinal(n, step.observed, s.c.validations[n]);
      ReceiptGrows(n, s.c.validations[n], BuildReceipt(cfg, step.observed, step.now));
    }
    StoryFrame(s, t, story, n);
  }

  lemma NewStory(cfg: Config, s: System, story: seq<Event>, step: Step)
    requires HistoryOk(s) && EventsKnown(s.c.validations, story) && step.CreateValidation? && Next(cfg, s, step) != s
    ensures step.n in Next(cfg, s, step).c.validations && StoryOf(Next(cfg, s, step), story, step.n)
  {
    NewcomerFits(cfg, s, step);
    hide HistoryOk, Next, EventsFor, Shape;
    var t := Next(cfg, s, step);
    var v := t.c.validations[step.n];
    NewcomerHasNoStory(step.n, t.c.events, v);
    NewcomerHasNoStory(step.n, story, v);
    NoEventsFor(t.c.events, v.uid);
    NoEventsFor(story, v.uid);
  }

  lemma OtherStory(cfg: Config, s: System, story: seq<Event>, step: Step, n: string)
    requires n in s.c.validations && StoryOf(s, story, n) && EventsKnown(s.c.validations, story)
    requires !step.Continue? && !step.DropEvent? && !step.Crash? && !step.AppendReceipt?
    ensures n in Next(cfg, s, step).c.validations && StoryOf(Next(cfg, s, step), story, n)
  {
    hide Tells, EventsFor, StoryOf, EventsKnown, PlanOf, TenantAfter, ScanJobNext, HandleDelivery, MayObserve, Emitted;
    var t := Next(cfg, s, step);
    if step.Begin? && step.n == n && n in t.flights && n !in s.flights { NothingDue(t.flights[n]); }
    StoryFrame(s, t, story, n);
  }

  lemma StepKeepsStoryOf(cfg: Config, s: System, story: seq<Event>, step: Step, n: string)
    requires HistoryOk(s) && StoryOk(s, story) && n in Next(cfg, s, step).c.validations
    ensures StoryOf(Next(cfg, s, step), story + Announced(s, step), n)
  {
    hide HistoryOk, Next, ContinueFlight, CrashFlight, DropFlight, StoryOf, Heard, EventsKnown, Emitted;
    assert story + [] == story;
    NextIs(cfg, s, step);
    if n !in s.c.validations { OnlyCreationAdds(cfg, s, step, n); }
    if n !in s.c.validations {
      NewStory(cfg, s, story, step);
    } else if step.Continue? && step.n in s.flights {
      ContinueStory(s, story, step.n, n);
    } else if (step.Crash? || step.DropEvent?) && step.n in s.flights {
      LossHeard(s, step.n, n, step.DropEvent?);
      StoryFrame(s, Next(cfg, s, step), story, n);
    } else if step.AppendReceipt? {
      ReceiptStory(cfg, s, story, step, n);
    } else if !step.Continue? && !step.Crash? && !step.DropEvent? {
      OtherStory(cfg, s, story, step, n);
    }
  }

  lemma AnnouncedIsKnown(cfg: Config, s: System, step: Step)
    requires HistoryOk(s)
    ensures EventsKnown(s.c.validations, Announced(s, step))
  {
    hide EventsOk, EventsKnown, DispatchOk, ValidationsOk, PlanSound, Emitted;
    if step.Continue? && step.n in s.flights {
      var f := s.flights[step.n];
      assert FlightOk(s.c, step.n, f);
      if f.plan.next.Some? {
        EmittedNamesTheRun(f.v, f.plan.next.value);
        OneRunKnown(s.c.validations, step.n, Emitted(f.v, f.plan.next.value));
      }
    }
    NothingUnknown(s.c.validations);
  }

  lemma OneRunKnown(validations: map<string, Validation>, n: string, events: seq<Event>)
    requires n in validations && forall i | 0 <= i < |events| :: RunOf(events[i]) == validations[n].uid
    ensures EventsKnown(validations, events)
  {
  }

  lemma NothingUnknown(validations: map<string, Validation>)
    ensures EventsKnown(validations, [])
  {
  }

  lemma KnownJoin(validations: map<string, Validation>, a: seq<Event>, b: seq<Event>)
    requires EventsKnown(validations, a) && EventsKnown(validations, b)
    ensures EventsKnown(validations, a + b)
  {
    forall e | e in a + b ensures exists n :: n in validations && validations[n].uid == RunOf(e) {
      assert e in a || e in b;
    }
  }

  lemma {:induction false} StoryHolds(cfg: Config, steps: seq<Step>)
    ensures StoryOk(Run(cfg, EMPTY_SYSTEM, steps), FullStory(cfg, steps))
  {
    if steps == [] {
      NothingUnknown(map[]);
    } else {
      var before := Run(cfg, EMPTY_SYSTEM, steps[..|steps| - 1]);
      var step := steps[|steps| - 1];
      var story, t := FullStory(cfg, steps[..|steps| - 1]), Run(cfg, EMPTY_SYSTEM, steps);
      HistoryHolds(cfg, steps[..|steps| - 1]);
      StoryHolds(cfg, steps[..|steps| - 1]);
      hide HistoryOk, Next, StoryOf, Announced, EventsKnown;
      AnnouncedIsKnown(cfg, before, step);
      KnownJoin(before.c.validations, story, Announced(before, step));
      forall n | n in before.c.validations
        ensures n in t.c.validations && t.c.validations[n].uid == before.c.validations[n].uid
      {
        StepFollowsTheChain(cfg, before, step, n);
        GrowsKeepsTheRun(before.c.validations[n], t.c.validations[n]);
      }
      KnownStay(before.c.validations, t.c.validations, story + Announced(before, step));
      forall n | n in t.c.validations ensures StoryOf(t, story + Announced(before, step), n) {
        StepKeepsStoryOf(cfg, before, story, step, n);
      }
    }
  }

  // Over every run, with deletes, kills and dropped events: what status writes announce of n always tells its
  // state; what was published of n, once no reconcile of n is under way, is that story in its order, with events
  // missing exactly when one was dropped or a reconcile died with one still to publish
  lemma StreamIsTheStoryIffNothingLost(cfg: Config, steps: seq<Step>, n: string)
    requires var s := Run(cfg, EMPTY_SYSTEM, steps); n in s.c.validations && n !in s.flights
    ensures var s := Run(cfg, EMPTY_SYSTEM, steps);
            var v := s.c.validations[n];
            var published, full := EventsFor(s.c.events, v.uid), EventsFor(FullStory(cfg, steps), v.uid);
            && Tells(full, v) && Subsequence(published, full) && (published == full <==> n !in s.lost)
  {
    StoryHolds(cfg, steps);
    hide Run, FullStory, EventsFor, Tells, EventsKnown, Subsequence;
    var s := Run(cfg, EMPTY_SYSTEM, steps);
    var published := EventsFor(s.c.events, s.c.validations[n].uid);
    assert StoryOf(s, FullStory(cfg, steps), n);
    assert published + [] == published;
    SubsequenceSize(published, EventsFor(FullStory(cfg, steps), s.c.validations[n].uid));
  }
}
