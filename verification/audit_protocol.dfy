/** The protocol every audited admin call follows: a log entry is written as running before the work starts
    and marked completed or failed after it, each write on its own, with calls of several admins interleaved
    in any way. */
module AuditProtocol {
  import opened Wrappers
  import opened Batches

  datatype Action =
    | ViewRawAIPayload
    | RerunSync | ResetCursor | RerunMetrics | RerunAlerts | RerunRecommendations | UpdateBillingState

  datatype Subject = Subject(sellerAccountId: int, action: Action, targetType: Option<string>, targetId: Option<int>)

  datatype Status = Running | Completed | Failed

  datatype Entry = Entry(subject: Subject, status: Status)

  /** How a write ends: it takes effect, it has none, or it takes effect and the caller is told it failed. */
  datatype Outcome = Done | Refused | Unconfirmed

  /** Where a call is; the number is its log entry. */
  datatype Phase = Working(id: nat) | Completing(id: nat) | Failing(id: nat) | Returned(payload: bool)

  /** Entry ids are positions; `handed` lists the entries whose raw payload was given to the admin. */
  datatype State = State(entries: seq<Entry>, calls: map<nat, Phase>, handed: seq<nat>)

  datatype Step =
    | Create(call: nat, subject: Subject, outcome: Outcome)
    | Work(call: nat, ok: bool)
    | Complete(call: nat, outcome: Outcome)
    | MarkFailed(call: nat, outcome: Outcome)

  const START := State([], map[], [])

  function WithStatus(entries: seq<Entry>, id: nat, status: Status): seq<Entry> {
    if id < |entries| then entries[id := entries[id].(status := status)] else entries
  }

  predicate IsView(entries: seq<Entry>, id: nat) {
    id < |entries| && entries[id].subject.action == ViewRawAIPayload
  }

  predicate Enabled(s: State, step: Step) {
    match step
    case Create(call, _, _) => call !in s.calls
    case Work(call, _) => call in s.calls && s.calls[call].Working?
    case Complete(call, _) => call in s.calls && s.calls[call].Completing?
    case MarkFailed(call, _) => call in s.calls && s.calls[call].Failing?
  }

  /** One step. Only a confirmed completion of a view hands its payload out; a view whose completion is not
      confirmed still tries to mark the entry failed, any other action returns at once. */
  function Taken(s: State, step: Step): State
    requires Enabled(s, step)
  {
    match step
    case Create(call, subject, outcome) =>
      if outcome == Refused then s.(calls := s.calls[call := Returned(false)])
      else s.(entries := s.entries + [Entry(subject, Running)],
              calls := s.calls[call := if outcome == Done then Working(|s.entries|) else Returned(false)])
    case Work(call, ok) =>
      var id := s.calls[call].id;
      s.(calls := s.calls[call := if ok then Completing(id) else Failing(id)])
    case Complete(call, outcome) =>
      var id := s.calls[call].id;
      var view := IsView(s.entries, id);
      State(if outcome == Refused then s.entries else WithStatus(s.entries, id, Completed),
            s.calls[call := if outcome == Done then Returned(view) else if view then Failing(id) else Returned(false)],
            if outcome == Done && view then s.handed + [id] else s.handed)
    case MarkFailed(call, outcome) =>
      s.(entries := if outcome == Refused then s.entries else WithStatus(s.entries, s.calls[call].id, Failed),
         calls := s.calls[call := Returned(false)])
  }

  /** A step that is not possible changes nothing, so that every list of steps is a run. */
  function Apply(s: State, step: Step): State {
    if Enabled(s, step) then Taken(s, step) else s
  }

  function Run(s: State, steps: seq<Step>): State {
    if steps == [] then s else Apply(Run(s, steps[..|steps| - 1]), steps[|steps| - 1])
  }

  lemma NoSteps(s: State)
    ensures Run(s, []) == s
  {
  }

  lemma RunOne(s: State, step: Step)
    ensures Run(s, [step]) == Apply(s, step)
  {
    assert [step][..0] == [];
  }

  lemma RunPush(s: State, steps: seq<Step>, step: Step)
    ensures Run(s, steps + [step]) == Apply(Run(s, steps), step)
  {
    assert (steps + [step])[..|steps|] == steps;
  }

  // ---------------------------------------------------------------- the invariant

  predicate InFlight(phase: Phase) {
    !phase.Returned?
  }

  /** The call has an entry of its own, still running unless a completion of it went unconfirmed. */
  predicate CallSound(s: State, phase: Phase) {
    InFlight(phase) ==>
      && phase.id < |s.entries| && phase.id !in s.handed
      && s.entries[phase.id].status != Failed
      && (!phase.Failing? ==> s.entries[phase.id].status == Running)
  }

  ghost predicate Sound(s: State) {
    && (forall c | c in s.calls :: CallSound(s, s.calls[c]))
    && (forall c, d | c in s.calls && d in s.calls && c != d && InFlight(s.calls[c]) && InFlight(s.calls[d]) ::
          s.calls[c].id != s.calls[d].id)
    && (forall id | id in s.handed :: IsView(s.entries, id) && s.entries[id].status == Completed)
    && (forall i, j | 0 <= i < j < |s.handed| :: s.handed[i] != s.handed[j])
  }

  lemma StepKeepsSound(s: State, step: Step)
    requires Sound(s)
    ensures Sound(Apply(s, step))
  {
    if Enabled(s, step) {
      match step
      case Create(_, _, _) =>
        CreateKeepsSound(s, step);
      case Work(_, _) =>
      case Complete(_, _) =>
        CompleteKeepsSound(s, step);
      case MarkFailed(_, _) =>
    }
  }

  lemma CreateKeepsSound(s: State, step: Step)
    requires Sound(s) && step.Create? && Enabled(s, step)
    ensures Sound(Taken(s, step))
  {
    var t := Taken(s, step);
    forall c | c in t.calls
      ensures CallSound(t, t.calls[c])
    {
      assert c in s.calls ==> CallSound(s, s.calls[c]);
      assert |s.entries| !in s.handed;
    }
  }

  lemma CompleteKeepsSound(s: State, step: Step)
    requires Sound(s) && step.Complete? && Enabled(s, step)
    ensures Sound(Taken(s, step))
  {
    var t := Taken(s, step);
    assert CallSound(s, s.calls[step.call]);
    forall c | c in t.calls
      ensures CallSound(t, t.calls[c])
    {
      assert c in s.calls && CallSound(s, s.calls[c]);
    }
  }

  lemma {:induction false} RunKeepsSound(s: State, steps: seq<Step>)
    requires Sound(s)
    ensures Sound(Run(s, steps))
  {
    if steps == [] {
    } else {
      RunKeepsSound(s, steps[..|steps| - 1]);
      StepKeepsSound(Run(s, steps[..|steps| - 1]), steps[|steps| - 1]);
    }
  }

  // ---------------------------------------------------------------- what every run keeps

  /** What an earlier state says about an entry still holds later: entries are never dropped, never change
      subject, never run again, and a failed one stays failed; an entry whose payload was handed out stays
      completed. */
  ghost predicate Kept(s: State, t: State) {
    && |s.entries| <= |t.entries| && s.handed <= t.handed
    && forall id | 0 <= id < |s.entries| ::
         && t.entries[id].subject == s.entries[id].subject
         && (s.entries[id].status != Running ==> t.entries[id].status != Running)
         && (s.entries[id].status == Failed ==> t.entries[id].status == Failed)
         && (id in s.handed ==> t.entries[id].status == Completed)
  }

  lemma StepKeeps(s: State, step: Step)
    requires Sound(s)
    ensures Kept(s, Apply(s, step))
  {
    if Enabled(s, step) && !step.Create? {
      assert CallSound(s, s.calls[step.call]);
    }
  }

  lemma KeptTrans(s: State, t: State, u: State)
    requires Kept(s, t) && Kept(t, u)
    ensures Kept(s, u)
  {
    assert forall id | id in s.handed :: id in t.handed;
  }

  lemma {:induction false} RunKeeps(s: State, steps: seq<Step>)
    requires Sound(s)
    ensures Kept(s, Run(s, steps))
  {
    if steps != [] {
      var front := steps[..|steps| - 1];
      RunKeeps(s, front);
      RunKeepsSound(s, front);
      StepKeeps(Run(s, front), steps[|steps| - 1]);
      KeptTrans(s, Run(s, front), Run(s, steps));
    } else {
      assert Sound(s);
    }
  }

  // ---------------------------------------------------------------- payloads and completed logs

  function About(entries: seq<Entry>, subject: Subject): nat -> seq<nat> {
    (id: nat) => if id < |entries| && entries[id].subject == subject then [id] else []
  }

  /** The payloads of a subject handed out so far, by entry. */
  function HandedTo(s: State, subject: Subject): seq<nat> {
    FlatMap(s.handed, About(s.entries, subject))
  }

  function CompletedLogs(s: State, subject: Subject): set<nat> {
    set id: nat | id < |s.entries| && s.entries[id] == Entry(subject, Completed)
  }

  function Self(): nat -> nat {
    (id: nat) => id
  }

  lemma HandedDistinct(s: State, subject: Subject)
    requires Sound(s)
    ensures DistinctValues(HandedTo(s, subject), Self())
  {
    var f := About(s.entries, subject);
    var ids := HandedTo(s, subject);
    forall i, j | 0 <= i < j < |ids|
      ensures Self()(ids[i]) != Self()(ids[j])
    {
      var k, l := FlatMapOrigins(s.handed, f, i, j);
      assert f(s.handed[k]) == [ids[i]] && f(s.handed[l]) == [ids[j]];
    }
  }

  lemma HandedAreCompleted(s: State, subject: Subject)
    requires Sound(s)
    ensures Values(HandedTo(s, subject), Self()) <= CompletedLogs(s, subject)
  {
    forall id | id in Values(HandedTo(s, subject), Self())
      ensures id in CompletedLogs(s, subject)
    {
      var i :| 0 <= i < |HandedTo(s, subject)| && HandedTo(s, subject)[i] == id;
      var k := FlatMapFrom(s.handed, About(s.entries, subject), id);
      assert s.handed[k] in s.handed;
    }
  }

  lemma SubsetSize(a: set<nat>, b: set<nat>)
    requires a <= b
    ensures |a| <= |b|
  {
    assert |b| == |a| + |b - a| by {
      assert a + (b - a) == b;
    }
  }

  lemma SoundHandsWithinCompleted(s: State, subject: Subject)
    requires Sound(s)
    ensures |HandedTo(s, subject)| <= |CompletedLogs(s, subject)|
  {
    HandedDistinct(s, subject);
    HandedAreCompleted(s, subject);
    DistinctByCount(HandedTo(s, subject), Self());
    SubsetSize(Values(HandedTo(s, subject), Self()), CompletedLogs(s, subject));
  }

  /** Over any run from the empty log, in any interleaving and with any failures: the payloads handed out for
      a seller and target never exceed the completed logs of viewing them. */
  lemma HandedWithinCompleted(steps: seq<Step>, subject: Subject)
    ensures |HandedTo(Run(START, steps), subject)| <= |CompletedLogs(Run(START, steps), subject)|
  {
    RunKeepsSound(START, steps);
    SoundHandsWithinCompleted(Run(START, steps), subject);
  }

  // ---------------------------------------------------------------- runs without unconfirmed writes

  function OutcomeOf(step: Step): Outcome {
    match step
    case Create(_, _, outcome) => outcome
    case Work(_, _) => Done
    case Complete(_, outcome) => outcome
    case MarkFailed(_, outcome) => outcome
  }

  ghost predicate Confirmed(s: State) {
    forall id: nat | IsView(s.entries, id) && s.entries[id].status == Completed :: id in s.handed
  }

  lemma StepKeepsConfirmed(s: State, step: Step)
    requires Sound(s) && Confirmed(s) && OutcomeOf(step) != Unconfirmed
    ensures Confirmed(Apply(s, step))
  {
    if Enabled(s, step) {
      var t := Taken(s, step);
      forall id: nat | IsView(t.entries, id) && t.entries[id].status == Completed
        ensures id in t.handed
      {
        if !step.Complete? || id != s.calls[step.call].id {
          assert IsView(s.entries, id) && s.entries[id].status == Completed;
        } else {
          assert CallSound(s, s.calls[step.call]);
        }
      }
    }
  }

  lemma {:induction false} RunKeepsConfirmed(steps: seq<Step>)
    requires forall k | 0 <= k < |steps| :: OutcomeOf(steps[k]) != Unconfirmed
    ensures Confirmed(Run(START, steps))
  {
    if steps == [] {
    } else {
      var front := steps[..|steps| - 1];
      RunKeepsConfirmed(front);
      RunKeepsSound(START, front);
      StepKeepsConfirmed(Run(START, front), steps[|steps| - 1]);
    }
  }

  /** When no write takes effect unnoticed, every completed view log stands for exactly one payload. */
  lemma HandedIsCompleted(steps: seq<Step>, subject: Subject)
    requires forall k | 0 <= k < |steps| :: OutcomeOf(steps[k]) != Unconfirmed
    requires subject.action == ViewRawAIPayload
    ensures var s := Run(START, steps);
      |HandedTo(s, subject)| == |CompletedLogs(s, subject)|
  {
    RunKeepsSound(START, steps);
    RunKeepsConfirmed(steps);
    var s := Run(START, steps);
    var f, ids := About(s.entries, subject), HandedTo(s, subject);
    HandedDistinct(s, subject);
    HandedAreCompleted(s, subject);
    DistinctByCount(ids, Self());
    forall id | id in CompletedLogs(s, subject)
      ensures id in Values(ids, Self())
    {
      assert IsView(s.entries, id);
      var k :| 0 <= k < |s.handed| && s.handed[k] == id;
      FlatMapHas(s.handed, f, k, id);
      var i :| 0 <= i < |ids| && ids[i] == id;
      assert Self()(ids[i]) == id;
    }
    assert Values(ids, Self()) == CompletedLogs(s, subject);
  }

  // ---------------------------------------------------------------- entries left running

  /** A running entry no call under way owns. */
  ghost predicate Orphan(s: State, id: nat) {
    && id < |s.entries| && s.entries[id].status == Running
    && forall c | c in s.calls && InFlight(s.calls[c]) :: s.calls[c].id != id
  }

  /** The step leaves its call's entry running for good: the entry was written but the call was told otherwise,
      or the last write that should have closed it was refused. */
  predicate LeavesRunning(s: State, step: Step, id: nat) {
    Enabled(s, step) &&
    match step
    case Create(_, _, outcome) => outcome == Unconfirmed && id == |s.entries|
    case Work(_, _) => false
    case Complete(call, outcome) => outcome == Refused && s.calls[call].id == id && !IsView(s.entries, id)
    case MarkFailed(call, outcome) =>
      outcome == Refused && s.calls[call].id == id && id < |s.entries| && s.entries[id].status == Running
  }

  lemma StepOrphans(s: State, step: Step, id: nat)
    requires Sound(s)
    ensures Orphan(Apply(s, step), id) <==> Orphan(s, id) || LeavesRunning(s, step, id)
  {
    if Enabled(s, step) {
      match step
      case Create(_, _, _) =>
        CreateOrphans(s, step, id);
      case Work(call, _) =>
        assert Taken(s, step).calls[call].id == s.calls[call].id;
        OtherCalls(s, step);
      case Complete(_, _) =>
        ClosingOrphans(s, step, id);
      case MarkFailed(_, _) =>
        ClosingOrphans(s, step, id);
    }
  }

  lemma OtherCalls(s: State, step: Step)
    requires Enabled(s, step)
    ensures forall c | c in s.calls && c != step.call ::
              c in Taken(s, step).calls && Taken(s, step).calls[c] == s.calls[c]
    ensures forall c | c in Taken(s, step).calls && c != step.call :: c in s.calls
    ensures step.call in Taken(s, step).calls
  {
  }

  lemma CreateOrphans(s: State, step: Step, id: nat)
    requires Sound(s) && Enabled(s, step) && step.Create?
    ensures Orphan(Taken(s, step), id) <==> Orphan(s, id) || LeavesRunning(s, step, id)
  {
    OtherCalls(s, step);
    assert forall c | c in s.calls && InFlight(s.calls[c]) :: CallSound(s, s.calls[c]);
    var t := Taken(s, step);
    assert step.outcome == Done && id == |s.entries| ==> InFlight(t.calls[step.call]) && t.calls[step.call].id == id;
  }

  lemma ClosingOrphans(s: State, step: Step, id: nat)
    requires Sound(s) && Enabled(s, step) && (step.Complete? || step.MarkFailed?)
    ensures Orphan(Taken(s, step), id) <==> Orphan(s, id) || LeavesRunning(s, step, id)
  {
    OtherCalls(s, step);
    var t := Taken(s, step);
    assert CallSound(s, s.calls[step.call]);
    if id == s.calls[step.call].id {
      assert forall c | c in t.calls && c != step.call && InFlight(t.calls[c]) :: t.calls[c].id != id;
      assert !Orphan(s, id);
      assert Orphan(t, id) <==> t.entries[id].status == Running && !InFlight(t.calls[step.call]);
    } else {
      assert id < |s.entries| ==> t.entries[id] == s.entries[id];
      assert InFlight(t.calls[step.call]) ==> t.calls[step.call].id != id;
    }
  }

  /** Some step of the run left the entry running for good. */
  ghost predicate WasLeft(steps: seq<Step>, id: nat) {
    exists k :: 0 <= k < |steps| && LeavesRunning(Run(START, steps[..k]), steps[k], id)
  }

  lemma LeftByLast(steps: seq<Step>, id: nat)
    requires steps != []
    ensures var front, n := steps[..|steps| - 1], |steps| - 1;
      WasLeft(steps, id) <==> WasLeft(front, id) || LeavesRunning(Run(START, front), steps[n], id)
  {
    hide LeavesRunning, Run;
    var front, n := steps[..|steps| - 1], |steps| - 1;
    if WasLeft(front, id) {
      var k :| 0 <= k < |front| && LeavesRunning(Run(START, front[..k]), front[k], id);
      assert front[..k] == steps[..k] && front[k] == steps[k];
    }
    if WasLeft(steps, id) {
      var k :| 0 <= k < |steps| && LeavesRunning(Run(START, steps[..k]), steps[k], id);
      if k < n {
        assert front[..k] == steps[..k] && front[k] == steps[k];
      }
    }
  }

  lemma {:induction false} OrphanIff(steps: seq<Step>, id: nat)
    ensures Orphan(Run(START, steps), id) <==> WasLeft(steps, id)
  {
    if steps == [] {
    } else {
      var front, n := steps[..|steps| - 1], |steps| - 1;
      OrphanIff(front, id);
      RunKeepsSound(START, front);
      StepOrphans(Run(START, front), steps[n], id);
      LeftByLast(steps, id);
      hide Orphan, LeavesRunning, WasLeft, Apply;
    }
  }

  /** Once all calls have returned, the entries still running are exactly those whose creation was not confirmed
      or whose last closing write was refused. */
  lemma LeftRunningIff(steps: seq<Step>, id: nat)
    requires forall c | c in Run(START, steps).calls :: Run(START, steps).calls[c].Returned?
    ensures id < |Run(START, steps).entries| && Run(START, steps).entries[id].status == Running <==> WasLeft(steps, id)
  {
    OrphanIff(steps, id);
    hide WasLeft, Run;
  }

  /** When every write works, no entry is left running once all calls have returned. */
  lemma NothingLeftRunning(steps: seq<Step>)
    requires forall k | 0 <= k < |steps| :: OutcomeOf(steps[k]) == Done
    requires forall c | c in Run(START, steps).calls :: Run(START, steps).calls[c].Returned?
    ensures forall id | 0 <= id < |Run(START, steps).entries| :: Run(START, steps).entries[id].status != Running
  {
    forall id | 0 <= id < |Run(START, steps).entries|
      ensures Run(START, steps).entries[id].status != Running
    {
      LeftRunningIff(steps, id);
    }
    hide Run;
  }
}
