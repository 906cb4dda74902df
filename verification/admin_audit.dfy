/** The admin service's two audited calls, over a log in which any write may fail, and calls of them in any sequence. */
module AdminAudit {
  import opened Wrappers
  import opened Text
  import opened Batches
  import opened Sums
  import opened AuditProtocol

  datatype AuditError =
    | ActorRequired | SellerRequired | DataUnavailable | InputRejected | NotRead
    | CreateFailed | WorkFailed(message: string) | CompleteFailed | LogNotMarked(message: string)

  /** An audited action's answer: the log entry as far as the caller knows it, and an error if there was one. */
  datatype ActionAnswer = ActionAnswer(log: Option<(nat, Entry)>, error: Option<AuditError>)

  /** Whether an action accepts its own input, before anything is logged, and whether what it reads back when all
      is done can be read, is given with the request; an action that checks or reads nothing has both true. */
  datatype Request =
    | ViewRequest(email: string, sellerAccountId: int, targetType: string, targetId: int)
    | ActionRequest(email: string, subject: Subject, accepted: bool, readable: bool)

  datatype Answer<T> = Viewed(payload: Result<T, AuditError>) | Acted(answer: ActionAnswer)

  function ViewSubject(sellerAccountId: int, targetType: string, targetId: int): Subject {
    Subject(sellerAccountId, ViewRawAIPayload, Some(targetType), Some(targetId))
  }

  function Validate(email: string, sellerAccountId: int): (invalid: Option<AuditError>)
    ensures invalid != Some(NotRead)
  {
    if TrimSpace(email) == "" then Some(ActorRequired)
    else if sellerAccountId <= 0 then Some(SellerRequired)
    else None
  }

  /** Earlier entries are untouched, and there is at most one new one, about the subject. */
  predicate AtMostOneAdded(before: seq<Entry>, after: seq<Entry>, subject: Subject) {
    after == before || (|after| == |before| + 1 && before <= after && after[|before|].subject == subject)
  }

  /** How an entry ends after its work, given how the write that should close it ended; `close` is what that write says.
      */
  function Closed(close: Status, write: Outcome): Status {
    if write == Refused then Running else close
  }

  /** How a view's entry ends when the payload was fetched: an unconfirmed or refused completion is followed by a
      failure mark. */
  function ClosedView(completion: Outcome, mark: Outcome): Status {
    if completion == Done || mark == Refused then Closed(Completed, completion) else Failed
  }

  /** A call is let through exactly with a visible e-mail and a positive seller; a missing e-mail is reported first. */
  lemma ValidateIff(email: string, sellerAccountId: int)
    ensures Validate(email, sellerAccountId).None? <==> HasVisible(email) && sellerAccountId > 0
    ensures Validate(email, sellerAccountId) == Some(ActorRequired) <==> !HasVisible(email)
    ensures Validate(email, sellerAccountId) == Some(SellerRequired) <==> HasVisible(email) && sellerAccountId <= 0
  {
    TrimLeavesVisible(email);
  }

  /** The service with its log. `outcome` says how the n-th write to the log ends, `works` what the n-th
      fetch or action returns, `peeks` whether the n-th lookup of a view's target finds it. The ghost fields
      follow the protocol. */
  class Service<T(!new)> {
    const outcome: nat -> Outcome
    const works: nat -> Result<T, string>
    const peeks: nat -> bool
    var writes: nat
    var worked: nat
    var peeked: nat
    var entries: seq<Entry>
    ghost var calls: map<nat, Phase>
    ghost var handed: seq<nat>
    ghost var next: nat

    constructor (outcome: nat -> Outcome, works: nat -> Result<T, string>, peeks: nat -> bool)
      ensures Valid() && View() == START && writes == worked == peeked == 0
      ensures this.outcome == outcome && this.works == works && this.peeks == peeks
    {
      this.outcome, this.works, this.peeks := outcome, works, peeks;
      writes, worked, peeked, entries := 0, 0, 0, [];
      calls, handed, next := map[], [], 0;
    }

    ghost function View(): State
      reads this
    {
      State(entries, calls, handed)
    }

    ghost predicate Valid()
      reads this
    {
      Sound(View()) && forall c | c in calls :: c < next
    }

    // ---------------------------------------------------------------- the log repository

    method CreateLog(subject: Subject, ghost call: nat, ghost start: State) returns (r: Option<nat>)
      requires call !in calls && View() == start
      modifies this`writes, this`entries, this`calls
      ensures writes == old(writes) + 1
      ensures View() == Run(start, [Create(call, subject, outcome(old(writes)))])
      ensures r == if outcome(old(writes)) == Done then Some(|old(entries)|) else None
      ensures entries
               == if outcome(old(writes)) == Refused then old(entries) else old(entries) + [Entry(subject, Running)]
      ensures calls
               == old(calls)[call := if outcome(old(writes)) == Done then Working(|old(entries)|) else Returned(false)]
    {
      var o := outcome(writes);
      writes := writes + 1;
      r := if o == Done then Some(|entries|) else None;
      RunOne(start, Create(call, subject, o));
      calls := calls[call := if o == Done then Working(|entries|) else Returned(false)];
      if o != Refused {
        entries := entries + [Entry(subject, Running)];
      }
    }

    method CompleteLog(id: nat, ghost call: nat, ghost start: State, ghost steps: seq<Step>) returns (ok: bool)
      requires call in calls && calls[call] == Completing(id) && id < |entries| && View() == Run(start, steps)
      modifies this`writes, this`entries, this`calls, this`handed
      ensures writes == old(writes) + 1
      ensures View() == Run(start, steps + [Complete(call, outcome(old(writes)))])
      ensures ok == (outcome(old(writes)) == Done)
      ensures entries
               == if outcome(old(writes)) == Refused then old(entries) else WithStatus(old(entries), id, Completed)
      ensures calls == old(calls)[call := if ok then Returned(IsView(old(entries), id))
                                          else if IsView(old(entries), id) then Failing(id) else Returned(false)]
      ensures handed == if ok && IsView(old(entries), id) then old(handed) + [id] else old(handed)
    {
      var o := outcome(writes);
      writes := writes + 1;
      ok := o == Done;
      RunPush(start, steps, Complete(call, o));
      ghost var view := IsView(entries, id);
      calls := calls[call := if ok then Returned(view) else if view then Failing(id) else Returned(false)];
      if o != Refused {
        entries := entries[id := entries[id].(status := Completed)];
      }
      if ok && view {
        handed := handed + [id];
      }
    }

    method FailLog(id: nat, ghost call: nat, ghost start: State, ghost steps: seq<Step>) returns (ok: bool)
      requires call in calls && calls[call] == Failing(id) && id < |entries| && View() == Run(start, steps)
      modifies this`writes, this`entries, this`calls
      ensures writes == old(writes) + 1
      ensures View() == Run(start, steps + [MarkFailed(call, outcome(old(writes)))])
      ensures ok == (outcome(old(writes)) == Done)
      ensures entries == if outcome(old(writes)) == Refused then old(entries) else WithStatus(old(entries), id, Failed)
      ensures calls == old(calls)[call := Returned(false)]
    {
      var o := outcome(writes);
      writes := writes + 1;
      ok := o == Done;
      RunPush(start, steps, MarkFailed(call, o));
      calls := calls[call := Returned(false)];
      if o != Refused {
        entries := entries[id := entries[id].(status := Failed)];
      }
    }

    /** The fetch of the payload, or the action itself. */
    method DoWork(ghost call: nat, ghost start: State, ghost steps: seq<Step>) returns (r: Result<T, string>)
      requires call in calls && calls[call].Working? && View() == Run(start, steps)
      modifies this`worked, this`calls
      ensures worked == old(worked) + 1 && r == works(old(worked))
      ensures View() == Run(start, steps + [Work(call, r.Ok?)])
      ensures calls
               == old(calls)[call := if r.Ok? then Completing(old(calls)[call].id) else Failing(old(calls)[call].id)]
    {
      r := works(worked);
      worked := worked + 1;
      RunPush(start, steps, Work(call, r.Ok?));
      ghost var id := calls[call].id;
      calls := calls[call := if r.Ok? then Completing(id) else Failing(id)];
    }

    /** The end of a view: mark the entry completed, or else try to mark it failed. */
    method CompleteOrFail(id: nat, ghost call: nat, ghost start: State, ghost steps: seq<Step>)
        returns (ok: bool, ghost taken: seq<Step>)
      requires call in calls && calls[call] == Completing(id) && id == |entries| - 1 && View() == Run(start, steps)
      requires IsView(entries, id)
      requires entries[id].status == Running
      modifies this`writes, this`entries, this`calls, this`handed
      ensures ok == (outcome(old(writes)) == Done) && View() == Run(start, taken)
      ensures |entries| == |old(entries)| && entries[..id] == old(entries)[..id]
      ensures entries[id].subject == old(entries)[id].subject
      ensures calls.Keys == old(calls).Keys
      ensures entries[id].status == ClosedView(outcome(old(writes)), outcome(old(writes) + 1))
      ensures ok ==> handed == old(handed) + [id]
      ensures !ok ==> handed == old(handed)
    {
      hide Run;
      taken := steps + [Complete(call, outcome(writes))];
      ok := CompleteLog(id, call, start, steps);
      if !ok {
        ghost var last := MarkFailed(call, outcome(writes));
        var marked := FailLog(id, call, start, taken);
        taken := taken + [last];
      }
    }

    /** The part of a view after its entry was written. */
    method FetchAndClose(id: nat, ghost call: nat, ghost start: State, ghost steps: seq<Step>)
      returns (r: Result<T, AuditError>, ghost taken: seq<Step>)
      requires call in calls && calls[call] == Working(id) && id == |entries| - 1 && View() == Run(start, steps)
      requires IsView(entries, id)
      requires entries[id].status == Running
      modifies this`writes, this`worked, this`entries, this`calls, this`handed
      ensures View() == Run(start, taken) && calls.Keys == old(calls).Keys && worked == old(worked) + 1
      ensures |entries| == |old(entries)| && entries[..id] == old(entries)[..id]
      ensures entries[id].subject == old(entries)[id].subject
      ensures entries[id].status
               == if works(old(worked)).Ok? then ClosedView(outcome(old(writes)), outcome(old(writes) + 1))
                                    else Closed(Failed, outcome(old(writes)))
      ensures r.Ok? <==> works(old(worked)).Ok? && outcome(old(writes)) == Done
      ensures r.Ok? ==> r.value == works(old(worked)).value && handed == old(handed) + [id]
      ensures r.Err? ==> handed == old(handed)
    {
      hide Run, ClosedView;
      var fetched := DoWork(call, start, steps);
      taken := steps + [Work(call, fetched.Ok?)];
      if fetched.Err? {
        ghost var last := MarkFailed(call, outcome(writes));
        var marked := FailLog(id, call, start, taken);
        return Err(WorkFailed(fetched.error)), taken + [last];
      }
      var completed;
      completed, taken := CompleteOrFail(id, call, start, taken);
      r := if completed then Ok(fetched.value) else Err(CompleteFailed);
    }

    // ---------------------------------------------------------------- the audited calls

    /** View a raw payload: it is handed out only when the entry was written, the fetch worked and the entry was
        marked completed; otherwise nothing is. The fetch never runs without an entry, and no other entry is touched. */
    method ViewRawAndFetch(email: string, sellerAccountId: int, targetType: string, targetId: int)
      returns (r: Result<T, AuditError>, ghost steps: seq<Step>)
      requires Valid()
      modifies this
      ensures Valid() && View() == Run(old(View()), steps)
      ensures r.Ok?
             <==> Validate(email, sellerAccountId).None? && outcome(old(writes)) == Done && works(old(worked)).Ok?
                         && outcome(old(writes) + 1) == Done
      ensures r.Ok? ==> r.value == works(old(worked)).value && handed == old(handed) + [|old(entries)|]
                        && entries == old(entries)
                                        + [Entry(ViewSubject(sellerAccountId, targetType, targetId), Completed)]
      ensures r.Err? ==> handed == old(handed)
      ensures AtMostOneAdded(old(entries), entries, ViewSubject(sellerAccountId, targetType, targetId))
      ensures worked != old(worked) ==> |entries| == |old(entries)| + 1 && worked == old(worked) + 1
      ensures worked != old(worked) ==>
        entries[|old(entries)|].status == if works(old(worked)).Ok? then ClosedView(outcome(old(writes) + 1),
                                                                                    outcome(old(writes) + 2))
                                             else Closed(Failed, outcome(old(writes) + 1))
    {
      hide Apply, Taken, Enabled, Run, Sound, Validate, ClosedView;
      NoSteps(View());
      steps := [];
      var invalid := Validate(email, sellerAccountId);
      if invalid.Some? {
        return Err(invalid.value), steps;
      }
      ghost var start, call := View(), next;
      next := next + 1;
      var subject := ViewSubject(sellerAccountId, targetType, targetId);
      steps := [Create(call, subject, outcome(writes))];
      var created := CreateLog(subject, call, start);
      RunKeepsSound(start, steps);
      if created.None? {
        return Err(CreateFailed), steps;
      }
      r, steps := FetchAndClose(created.value, call, start, steps);
      RunKeepsSound(start, steps);
    }

    /** A view of a raw payload as the admin asks for it: the seller and target must be named and the target
        found before the audited part begins; nothing is logged or handed out otherwise. */
    method ViewTarget(email: string, sellerAccountId: int, targetType: string, targetId: int)
      returns (r: Result<T, AuditError>, ghost steps: seq<Step>)
      requires Valid()
      modifies this
      ensures Valid() && View() == Run(old(View()), steps)
      ensures r.Ok?
             <==> sellerAccountId > 0 && targetId > 0 && peeks(old(peeked)) && Validate(email, sellerAccountId).None?
                         && outcome(old(writes)) == Done && works(old(worked)).Ok? && outcome(old(writes) + 1) == Done
      ensures r.Ok? ==> r.value == works(old(worked)).value && handed == old(handed) + [|old(entries)|]
                        && entries == old(entries)
                                        + [Entry(ViewSubject(sellerAccountId, targetType, targetId), Completed)]
      ensures r.Err? ==> handed == old(handed)
      ensures AtMostOneAdded(old(entries), entries, ViewSubject(sellerAccountId, targetType, targetId))
      ensures sellerAccountId <= 0 || targetId <= 0 || !peeks(old(peeked)) ==>
        entries == old(entries) && writes == old(writes) && worked == old(worked)
    {
      hide Sound, Run, Validate;
      steps := [];
      NoSteps(View());
      if sellerAccountId <= 0 {
        return Err(SellerRequired), steps;
      }
      if targetId <= 0 {
        return Err(DataUnavailable), steps;
      }
      var found := peeks(peeked);
      peeked := peeked + 1;
      if !found {
        return Err(DataUnavailable), steps;
      }
      r, steps := ViewRawAndFetch(email, sellerAccountId, targetType, targetId);
    }

    /** Run an audited action. The action never runs without an entry; its answer carries an error exactly when
        something failed, and without one the entry is completed. */
    method RunAuditedAction(email: string, subject: Subject) returns (answer: ActionAnswer, ghost steps: seq<Step>)
      requires Valid() && subject.action != ViewRawAIPayload
      modifies this
      ensures Valid() && View() == Run(old(View()), steps) && handed == old(handed)
      ensures answer.error.None? <==> Validate(email, subject.sellerAccountId).None? && outcome(old(writes)) == Done
                                      && works(old(worked)).Ok? && outcome(old(writes) + 1) == Done
      ensures answer.error.None? ==> entries == old(entries) + [Entry(subject, Completed)]
                                     && answer.log == Some((|old(entries)|, Entry(subject, Completed)))
      ensures answer.error != Some(NotRead)
      ensures AtMostOneAdded(old(entries), entries, subject)
      ensures worked != old(worked) ==> |entries| == |old(entries)| + 1 && worked == old(worked) + 1
      ensures worked != old(worked) ==>
        entries[|old(entries)|].status == Closed(if works(old(worked)).Ok? then Completed else Failed,
                                                 outcome(old(writes) + 1))
    {
      hide Apply, Taken, Enabled, Run, Sound, Validate;
      NoSteps(View());
      steps := [];
      var invalid := Validate(email, subject.sellerAccountId);
      if invalid.Some? {
        return ActionAnswer(None, invalid), steps;
      }
      ghost var start, call := View(), next;
      next := next + 1;
      steps := [Create(call, subject, outcome(writes))];
      var created := CreateLog(subject, call, start);
      RunKeepsSound(start, steps);
      if created.None? {
        return ActionAnswer(None, Some(CreateFailed)), steps;
      }
      answer, steps := ActAndClose(created.value, subject, call, start, steps);
      RunKeepsSound(start, steps);
    }

    /** An action as the admin asks for it. Rejected input leaves no trace; an error after everything worked, when the
        result cannot be read back, leaves the entry completed and is given with it. */
    method Act(email: string, subject: Subject, accepted: bool, readable: bool)
      returns (answer: ActionAnswer, ghost steps: seq<Step>)
      requires Valid() && subject.action != ViewRawAIPayload
      modifies this
      ensures Valid() && View() == Run(old(View()), steps) && handed == old(handed)
      ensures !accepted ==> View() == old(View()) && writes == old(writes) && worked == old(worked)
      ensures var worked := accepted && Validate(email, subject.sellerAccountId).None? && outcome(old(writes)) == Done
                            && works(old(worked)).Ok? && outcome(old(writes) + 1) == Done;
        && (answer.error.None? <==> worked && readable)
        && (answer.error == Some(NotRead) ==> worked && !readable)
        && (worked ==> entries == old(entries) + [Entry(subject, Completed)]
                       && answer.log == Some((|old(entries)|, Entry(subject, Completed))))
      ensures AtMostOneAdded(old(entries), entries, subject)
    {
      hide Sound, Run, Validate;
      NoSteps(View());
      if !accepted {
        return ActionAnswer(None, Some(InputRejected)), [];
      }
      answer, steps := RunAuditedAction(email, subject);
      if answer.error.None? && !readable {
        answer := answer.(error := Some(NotRead));
      }
    }

    /** The part of an audited action after its entry was written. */
    method ActAndClose(id: nat, subject: Subject, ghost call: nat, ghost start: State, ghost steps: seq<Step>)
      returns (answer: ActionAnswer, ghost taken: seq<Step>)
      requires call in calls && calls[call] == Working(id) && id == |entries| - 1 && View() == Run(start, steps)
      requires entries[id] == Entry(subject, Running) && subject.action != ViewRawAIPayload
      modifies this`writes, this`worked, this`entries, this`calls, this`handed
      ensures View() == Run(start, taken) && calls.Keys == old(calls).Keys && worked == old(worked) + 1
      ensures handed == old(handed)
      ensures entries
               == old(entries)[id := Entry(subject, Closed(if works(old(worked)).Ok? then Completed else Failed,
                                                           outcome(old(writes))))]
      ensures answer.error.None? <==> works(old(worked)).Ok? && outcome(old(writes)) == Done
      ensures answer.error.None? ==> answer.log == Some((id, Entry(subject, Completed)))
      ensures answer.error != Some(NotRead)
      ensures answer.error == Some(CompleteFailed) ==> answer.log == Some((id, Entry(subject, Running)))
    {
      hide Run;
      var result := DoWork(call, start, steps);
      taken := steps + [Work(call, result.Ok?)];
      if result.Err? {
        ghost var last := MarkFailed(call, outcome(writes));
        var marked := FailLog(id, call, start, taken);
        taken := taken + [last];
        answer :=
          if marked then ActionAnswer(Some((id, Entry(subject, Failed))), Some(WorkFailed(result.error)))
          else ActionAnswer(Some((id, Entry(subject, Running))), Some(LogNotMarked(result.error)));
        return;
      }
      ghost var last := Complete(call, outcome(writes));
      var completed := CompleteLog(id, call, start, taken);
      taken := taken + [last];
      answer :=
        if completed then ActionAnswer(Some((id, Entry(subject, Completed))), None)
        else ActionAnswer(Some((id, Entry(subject, Running))), Some(CompleteFailed));
    }

    method Serve(request: Request) returns (answer: Answer<T>)
      requires Valid() && Servable(request)
      modifies this
      ensures Valid() && Kept(old(View()), View())
      ensures forall subject :: |HandedTo(View(), subject)|
                             == |HandedTo(old(View()), subject)|
                                + if HandsOut(subject)(Exchange(request, answer)) then 1 else 0
    {
      hide Sound, Kept, Run, Validate;
      ghost var start, steps := View(), [];
      match request {
        case ViewRequest(email, sellerAccountId, targetType, targetId) =>
          var payload;
          payload, steps := ViewTarget(email, sellerAccountId, targetType, targetId);
          answer := Viewed(payload);
        case ActionRequest(email, subject, accepted, readable) =>
          var result;
          result, steps := Act(email, subject, accepted, readable);
          answer := Acted(result);
      }
      RunKeeps(start, steps);
      forall subject
        ensures |HandedTo(View(), subject)|
                 == |HandedTo(start, subject)| + if HandsOut(subject)(Exchange(request, answer)) then 1 else 0
      {
        HandedGrows(start, View(), subject);
      }
    }

    /** Any sequence of calls: every payload in an answer is accounted for, and for each seller and target there
        are no more of them than completed logs of viewing it. */
    method ServeAll(requests: seq<Request>) returns (exchanges: seq<Exchange<T>>)
      requires Valid() && forall k | 0 <= k < |requests| :: Servable(requests[k])
      modifies this
      ensures Valid() && Kept(old(View()), View())
      ensures |exchanges| == |requests| && forall k | 0 <= k < |requests| :: exchanges[k].request == requests[k]
      ensures forall subject ::
                |HandedTo(View(), subject)| == |HandedTo(old(View()), subject)| + Count(exchanges, HandsOut(subject))
      ensures forall subject ::
        |HandedTo(old(View()), subject)| + Count(exchanges, HandsOut(subject)) <= |CompletedLogs(View(), subject)|
    {
      hide Sound, Kept, HandedTo, Count, HandsOut, CompletedLogs;
      exchanges := [];
      KeptSelf(View());
      forall subject: Subject
        ensures Count<Exchange<T>>([], HandsOut(subject)) == 0
      {
        CountNone<Exchange<T>>([], HandsOut(subject));
      }
      for i := 0 to |requests|
        invariant Valid() && Kept(old(View()), View())
        invariant |exchanges| == i && forall k | 0 <= k < i :: exchanges[k].request == requests[k]
        invariant forall subject ::
          |HandedTo(View(), subject)| == |HandedTo(old(View()), subject)| + Count(exchanges, HandsOut(subject))
      {
        ghost var before := View();
        var answer := Serve(requests[i]);
        forall subject: Subject
          ensures Count(exchanges + [Exchange(requests[i], answer)], HandsOut(subject))
               == Count(exchanges, HandsOut(subject)) + if HandsOut(subject)(Exchange(requests[i], answer)) then 1
                                                        else 0
        {
          CountPush(exchanges, HandsOut(subject), Exchange(requests[i], answer));
        }
        exchanges := exchanges + [Exchange(requests[i], answer)];
        KeptTrans(old(View()), before, View());
      }
      forall subject: Subject
        ensures |HandedTo(View(), subject)| <= |CompletedLogs(View(), subject)|
      {
        SoundHandsWithinCompleted(View(), subject);
      }
    }
  }

  datatype Exchange<T> = Exchange(request: Request, answer: Answer<T>)

  /** Only the view calls view payloads. */
  predicate Servable(request: Request) {
    request.ActionRequest? ==> request.subject.action != ViewRawAIPayload
  }

  /** An exchange that answers a view of the subject with its payload. */
  function HandsOut<T>(subject: Subject): Exchange<T> -> bool {
    (exchange: Exchange<T>) =>
      && exchange.request.ViewRequest? && exchange.answer.Viewed? && exchange.answer.payload.Ok?
      && ViewSubject(exchange.request.sellerAccountId, exchange.request.targetType, exchange.request.targetId)
         == subject
  }

  lemma KeptSelf(s: State)
    requires Sound(s)
    ensures Kept(s, s)
  {
  }

  /** What is handed out between two states, by subject. */
  lemma HandedGrows(s: State, t: State, subject: Subject)
    requires Sound(s) && Sound(t) && Kept(s, t) && |t.handed| <= |s.handed| + 1
    ensures |HandedTo(t, subject)| == |HandedTo(s, subject)|
            + if |t.handed| > |s.handed| then |About(t.entries, subject)(t.handed[|s.handed|])| else 0
  {
    var f, g := About(s.entries, subject), About(t.entries, subject);
    forall k | 0 <= k < |s.handed|
      ensures f(s.handed[k]) == g(s.handed[k])
    {
      assert s.handed[k] in s.handed;
    }
    FlatMapSame(s.handed, f, g);
    assert t.handed[..|s.handed|] == s.handed;
    if |t.handed| > |s.handed| {
      var id := t.handed[|s.handed|];
      assert id in t.handed;
      assert t.handed[..|t.handed| - 1] == s.handed;
    } else {
      assert t.handed == s.handed;
    }
  }
}
