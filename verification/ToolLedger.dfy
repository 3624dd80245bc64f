/**
 Delegated tool calls: the tool_invocations table with its two transactions, and the system of
 callers around it. A caller may crash between any two of its actions, and any number of callers,
 of any attempt, may use the same invocation id.
 */
module ToolLedger {
  import opened Wrappers
  import opened Protocol

  datatype ToolExecution = ToolExecution(result: string, isError: bool)

  /** An invocation of one run; the outcome is missing while it is executing. */
  datatype InvocationId = InvocationId(runId: Uuid, invocationId: Uuid)

  datatype ToolRow = ToolRow(requestSha256: Digest, outcome: Option<ToolExecution>)

  type Ledger = map<InvocationId, ToolRow>

  /** The first transaction: Ok(None) sends the caller on to the gateway. */
  function Reserve(ledger: Ledger, id: InvocationId, digest: Digest): (Ledger, Result<Option<ToolExecution>, string>) {
    if id in ledger then
      if ledger[id].requestSha256 != digest then (ledger, Err("tool_idempotency_conflict"))
      else if ledger[id].outcome.None? then (ledger, Err("tool_outcome_ambiguous"))
      else (ledger, Ok(ledger[id].outcome))
    else (ledger[id := ToolRow(digest, None)], Ok(None))
  }

  /** The second transaction, after the gateway has answered. */
  function Record(ledger: Ledger, id: InvocationId, execution: ToolExecution): (Ledger, Result<ToolExecution, string>) {
    if id in ledger && ledger[id].outcome.None?
    then (ledger[id := ledger[id].(outcome := Some(execution))], Ok(execution))
    else (ledger, Err("tool_outcome_ambiguous"))
  }

  class ToolInvocations {
    var rows: Ledger

    constructor ()
      ensures rows == map[]
    {
      rows := map[];
    }

    method DoReserve(id: InvocationId, digest: Digest) returns (stored: Result<Option<ToolExecution>, string>)
      modifies this
      ensures (rows, stored) == Reserve(old(rows), id, digest)
    {
      if id in rows {
        var existing := rows[id];
        if existing.requestSha256 != digest {
          return Err("tool_idempotency_conflict");
        }
        if existing.outcome.None? {
          return Err("tool_outcome_ambiguous");
        }
        return Ok(existing.outcome);
      }
      rows := rows[id := ToolRow(digest, None)];
      return Ok(None);
    }

    method DoRecord(id: InvocationId, execution: ToolExecution) returns (result: Result<ToolExecution, string>)
      modifies this
      ensures (rows, result) == Record(old(rows), id, execution)
    {
      var updated := 0;
      if id in rows && rows[id].outcome.None? {
        rows := rows[id := rows[id].(outcome := Some(execution))];
        updated := 1;
      }
      if updated != 1 {
        return Err("tool_outcome_ambiguous");
      }
      return Ok(execution);
    }
  }

  // ---------------------------------------------------------------------------------------------
  // Callers

  datatype Phase =
    | Reserved(id: InvocationId, digest: Digest)
    | Invoked(id: InvocationId, digest: Digest, execution: ToolExecution)

  /** A successful answer to an agent. */
  datatype Answer = Answer(id: InvocationId, digest: Digest, execution: ToolExecution)

  datatype System = System(
    ledger: Ledger, callers: map<nat, Phase>, gateway: seq<(InvocationId, ToolExecution)>, results: seq<Answer>)

  datatype Step =
    | Call(caller: nat, id: InvocationId, digest: Digest)
    | Invoke(caller: nat, execution: ToolExecution)
    | Finish(caller: nat, tooLarge: bool)
    | Crash(caller: nat)

  const INITIAL := System(map[], map[], [], [])

  function Apply(s: System, step: Step): System {
    match step
    case Call(caller, id, digest) =>
      if caller in s.callers then s
      else
        (match Reserve(s.ledger, id, digest)
         case (ledger, Ok(None)) => s.(ledger := ledger, callers := s.callers[caller := Reserved(id, digest)])
         case (ledger, Ok(Some(stored))) =>
           s.(ledger := ledger, results := s.results + [Answer(id, digest, stored)])
         case (ledger, Err(_)) => s.(ledger := ledger))
    case Invoke(caller, execution) =>
      if caller in s.callers && s.callers[caller].Reserved? then
        var call := s.callers[caller];
        s.(callers := s.callers[caller := Invoked(call.id, call.digest, execution)],
           gateway := s.gateway + [(call.id, execution)])
      else s
    case Finish(caller, tooLarge) =>
      if caller in s.callers && s.callers[caller].Invoked? then
        var call := s.callers[caller];
        var rest := s.callers - {caller};
        if tooLarge then s.(callers := rest)
        else
          match Record(s.ledger, call.id, call.execution)
          case (ledger, Ok(result)) =>
            s.(ledger := ledger, callers := rest, results := s.results + [Answer(call.id, call.digest, result)])
          case (ledger, Err(_)) => s.(ledger := ledger, callers := rest)
      else s
    case Crash(caller) => s.(callers := s.callers - {caller})
  }

  function Run(s: System, steps: seq<Step>): System
    decreases |steps|
  {
    if steps == [] then s else Run(Apply(s, steps[0]), steps[1..])
  }

  /** Only the caller that inserted the row is between the two transactions, and only before the outcome. */
  ghost predicate CallerOk(s: System, caller: nat)
    requires caller in s.callers
  {
    var call := s.callers[caller];
    && call.id in s.ledger && s.ledger[call.id] == ToolRow(call.digest, None)
    && (call.Reserved? ==> NeverInvoked(s, call.id))
    && (call.Invoked? ==> (call.id, call.execution) in s.gateway)
    && forall other | other in s.callers && s.callers[other].id == call.id :: other == caller
  }

  ghost predicate NeverInvoked(s: System, id: InvocationId) {
    forall i | 0 <= i < |s.gateway| :: s.gateway[i].0 != id
  }

  ghost predicate Inv(s: System) {
    && (forall caller | caller in s.callers :: CallerOk(s, caller))
    && (forall i | 0 <= i < |s.gateway| :: s.gateway[i].0 in s.ledger)
    && (forall i, j | 0 <= i < j < |s.gateway| :: s.gateway[i].0 != s.gateway[j].0)
    && (forall id | id in s.ledger && s.ledger[id].outcome.Some? :: (id, s.ledger[id].outcome.value) in s.gateway)
    && (forall i | 0 <= i < |s.results| ::
          s.results[i].id in s.ledger
          && s.ledger[s.results[i].id] == ToolRow(s.results[i].digest, Some(s.results[i].execution)))
  }

  lemma StepKeepsCaller(s: System, step: Step, caller: nat)
    requires Inv(s) && caller in Apply(s, step).callers
    ensures CallerOk(Apply(s, step), caller)
  {
    if caller in s.callers {
      assert CallerOk(s, caller);
    }
    if step.caller in s.callers {
      assert CallerOk(s, step.caller);
    }
  }

  lemma StepKeepsInv(s: System, step: Step)
    requires Inv(s)
    ensures Inv(Apply(s, step))
  {
    var s' := Apply(s, step);
    if step.caller in s.callers {
      assert CallerOk(s, step.caller);
    }
    forall caller | caller in s'.callers ensures CallerOk(s', caller) {
      StepKeepsCaller(s, step, caller);
    }
    hide CallerOk;
  }

  lemma {:induction false} RunKeepsInv(s: System, steps: seq<Step>)
    requires Inv(s)
    ensures Inv(Run(s, steps))
    decreases |steps|
  {
    if steps != [] {
      StepKeepsInv(s, steps[0]);
      RunKeepsInv(Apply(s, steps[0]), steps[1..]);
    }
  }

  /**
   Over all callers, crashes and interleavings, the gateway is invoked at most once for an
   invocation id, and all successful returns for it carry the same request digest and the very
   result of that one invocation.
   */
  lemma ToolCallsAtMostOnce(steps: seq<Step>)
    ensures var s := Run(INITIAL, steps);
            && (forall i, j | 0 <= i < |s.gateway| && 0 <= j < |s.gateway| && s.gateway[i].0 == s.gateway[j].0 ::
                  i == j)
            && (forall r, r' | r in s.results && r' in s.results && r.id == r'.id :: r == r')
            && (forall r | r in s.results :: (r.id, r.execution) in s.gateway)
  {
    RunKeepsInv(INITIAL, steps);
  }

  /**
   A reservation is never released: once the gateway may have been called without an outcome being
   recorded and the caller is gone, every later call with the id is refused, whatever happens.
   */
  ghost predicate Ambiguous(s: System, id: InvocationId) {
    id in s.ledger && s.ledger[id].outcome.None? && forall caller | caller in s.callers :: s.callers[caller].id != id
  }

  lemma AmbiguousStep(s: System, step: Step, id: InvocationId)
    requires Inv(s) && Ambiguous(s, id)
    ensures var s' := Apply(s, step);
            Ambiguous(s', id) && s.gateway <= s'.gateway
            && forall i | |s.gateway| <= i < |s'.gateway| :: s'.gateway[i].0 != id
  {
  }

  lemma {:induction false} AmbiguousForever(s: System, steps: seq<Step>, id: InvocationId, digest: Digest)
    requires Inv(s) && Ambiguous(s, id)
    ensures var s' := Run(s, steps);
            && Ambiguous(s', id) && Reserve(s'.ledger, id, digest).1.Err?
            && (forall i | |s.gateway| <= i < |s'.gateway| :: s'.gateway[i].0 != id)
            && s.gateway <= s'.gateway
    decreases |steps|
  {
    if steps != [] {
      StepKeepsInv(s, steps[0]);
      AmbiguousStep(s, steps[0], id);
      hide Inv, Apply, Ambiguous;
      AmbiguousForever(Apply(s, steps[0]), steps[1..], id, digest);
    }
  }
}
