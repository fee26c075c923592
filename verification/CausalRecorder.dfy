/** The ledger and the recording of events, as the runtime host keeps them. */
module CausalRecorder {
  import opened Options
  import opened CausalModel

  class CausalLedger {
    var sessionHeads: map<nat, nat>
    var contextHeads: map<nat, nat>
    var taskHeads: map<nat, nat>
    var taskContexts: map<nat, Context>
    var providerStarts: map<(nat, nat), nat>
    var toolStarts: map<(nat, nat), nat>
    var verificationHeads: map<nat, nat>

    function Value(): (l: Ledger)
      reads this
    {
      Ledger(sessionHeads, contextHeads, taskHeads, taskContexts, providerStarts, toolStarts, verificationHeads)
    }

    constructor ()
      ensures Value() == EMPTY_LEDGER
    {
      sessionHeads, contextHeads, taskHeads, taskContexts := map[], map[], map[], map[];
      providerStarts, toolStarts, verificationHeads := map[], map[], map[];
    }

    method SeedContextHead(e: Event)
      modifies `contextHeads
      ensures contextHeads == PutContext(old(contextHeads), e)
    {
      if IsHistory(e) { contextHeads := contextHeads[e.session := e.id]; }
    }

    method IndexLifecycle(e: Event)
      modifies `providerStarts, `toolStarts, `verificationHeads
      ensures providerStarts == PutProvider(old(providerStarts), e)
      ensures toolStarts == PutTool(old(toolStarts), e)
      ensures verificationHeads == PutPlan(old(verificationHeads), e)
    {
      if e.task.None? { return; }
      var task := e.task.value;
      match e.eventType {
        case ProviderStarted =>
          if e.context.requestId.Some? { providerStarts := providerStarts[(task, e.context.requestId.value) := e.id]; }
        case ToolStarted =>
          if e.context.toolCallId.Some? { toolStarts := toolStarts[(task, e.context.toolCallId.value) := e.id]; }
        case VerificationPlanned => verificationHeads := verificationHeads[task := e.id];
        case _ =>
      }
    }

    /** Takes in an event read back from the store. */
    method SeedEvent(e: Event)
      modifies this
      ensures Value() == Seed(old(Value()), e)
    {
      sessionHeads := sessionHeads[e.session := e.id];
      SeedContextHead(e);
      if e.task.Some? {
        taskHeads := taskHeads[e.task.value := e.id];
        taskContexts := taskContexts[e.task.value := SynchronizeEnvelope(e.context, e, None)];
        IndexLifecycle(e);
      }
    }

    /** Completes a new event and makes it the newest. */
    method Enrich(workspace: nat, e: Event) returns (r: Event)
      modifies this
      ensures r == Enriched(old(Value()), workspace, e)
      ensures Value() == Put(old(Value()), r, r.context)
    {
      r := WithParent(Value(), e);
      r := WithContext(Value(), workspace, r);
      r := AddLifecycleLinks(r);
      MakeNewest(r);
    }

    method MakeNewest(e: Event)
      modifies this
      ensures Value() == Put(old(Value()), e, e.context)
    {
      if e.task.Some? {
        taskContexts := taskContexts[e.task.value := e.context];
        taskHeads := taskHeads[e.task.value := e.id];
      }
      sessionHeads := sessionHeads[e.session := e.id];
      SeedContextHead(e);
      IndexLifecycle(e);
    }

    method AddLifecycleLinks(e: Event) returns (r: Event)
      ensures r == WithTarget(Value(), e)
    {
      r := e;
      var target := Target(Value(), e);
      if target.Some? { r := e.(links := AddLink(e.links, e.id, target.value.0, target.value.1)); }
    }
  }

  /** How a call to record an event ends: stored; refused by the store; or dropped, after so many of its
      readings or while it appends. */
  datatype Ending = Stored | Refused | DroppedReading(readings: nat) | DroppedAppending

  /** A host: one writer at a time, a ledger in memory and the store. */
  class RuntimeHost {
    const workspace: nat
    const ledger: CausalLedger
    var log: seq<Event>
    ghost var abandoned: set<nat>

    ghost function Value(): (h: Host)
      reads this, ledger
    {
      Host(ledger.Value(), log, abandoned)
    }

    constructor (workspace: nat, log: seq<Event>)
      ensures Value() == Host(EMPTY_LEDGER, log, {}) && this.workspace == workspace
      ensures fresh(ledger)
    {
      this.workspace, this.log, abandoned := workspace, log, {};
      ledger := new CausalLedger();
    }

    /** Reads back what the ledger lacks about the event's task, session and history. */
    method RecallMissing(e: Event, readings: nat)
      modifies ledger
      ensures ledger.Value() == RecallSome(old(ledger.Value()), log, e, readings)
    {
      var hasSession, hasContext := e.session in ledger.sessionHeads, e.session in ledger.contextHeads;
      var hasTask := e.task.Some? && e.task.value in ledger.taskHeads;
      if readings >= 1 && !hasTask && e.task.Some? { SeedFrom(Last(log, OfSessionTask(e.session, e.task.value))); }
      if readings >= 2 && !hasSession { SeedFrom(Last(log, OfSession(e.session))); }
      if readings >= 3 && !hasContext {
        var previous := Last(log, ListedOf(e.session));
        if previous.Some? { ledger.SeedContextHead(previous.value); }
      }
    }

    method SeedFrom(previous: Option<Event>)
      modifies ledger
      ensures ledger.Value() == SeedFound(old(ledger.Value()), previous)
    {
      if previous.Some? { ledger.SeedEvent(previous.value); }
    }

    method PrepareCanonicalEvent(e: Event) returns (r: Event)
      modifies ledger
      ensures r == Prepared(old(Value()), workspace, e)
      ensures ledger.Value() == Noted(old(Value()), workspace, e)
    {
      RecallMissing(e, ALL_READINGS);
      r := ledger.Enrich(workspace, e);
    }

    /** Records an event.  When the store refuses it the ledger is as it was; when the call is dropped the
        ledger stays as far as it had come. */
    method RecordEvent(e: Event, ending: Ending) returns (ok: bool)
      modifies this, ledger
      ensures ok <==> ending.Stored?
      ensures Value() == Apply(old(Value()), workspace, ActionOf(e, ending))
    {
      if ending.DroppedReading? {
        RecallMissing(e, ending.readings);
        return false;
      }
      var before := ledger.Value();
      var r := PrepareCanonicalEvent(e);
      if ending.Refused? {
        Restore(before);
      } else if ending.Stored? {
        log := log + [r];
      } else {
        abandoned := abandoned + {e.id};
      }
      return ending.Stored?;
    }

    method Restore(l: Ledger)
      modifies ledger
      ensures ledger.Value() == l
    {
      ledger.sessionHeads, ledger.contextHeads, ledger.taskHeads := l.sessionHeads, l.contextHeads, l.taskHeads;
      ledger.taskContexts, ledger.providerStarts := l.taskContexts, l.providerStarts;
      ledger.toolStarts, ledger.verificationHeads := l.toolStarts, l.verificationHeads;
    }
  }

  function ActionOf(e: Event, ending: Ending): (a: Action) {
    match ending
    case Stored => Record(e)
    case Refused => FailToRecord(e)
    case DroppedReading(readings) => AbandonRecall(e, readings)
    case DroppedAppending => AbandonRecord(e)
  }
}
