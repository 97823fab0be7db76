/**
 The at-most-once execution protocol: worker processes, recovery processes,
 any other session managers and the remote authority's handler threads, all
 interleaved, with a crash or a storage error possible at every step.

 A worker performs WorkerRuntimeAdapter._execute_one; one step is one SQL
 statement, one repository read or save, or one gateway call.
 */
module Execution {
  import opened Wrappers
  import opened Contracts
  import opened SessionStore
  import opened Leases
  import opened RemoteStore

  // One call of _execute_one.  The fingerprint digests what the remote request carries besides its keys.
  datatype Work = Work(request: Request, fingerprint: string)

  function Sent(w: Work): RemoteRequest {
    RemoteRequest(w.request.executionId, w.request.key, w.fingerprint, w.request.runId)
  }

  datatype Conclusion = NoLease | Terminal(result: ExecutionResult) | NoResult

  datatype Phase =
    // WorkerRuntimeAdapter._execute_one
    | Inserting(work: Work)
    | Clashed(work: Work)
    | Auditing(work: Work, lease: Lease)
    | AuditSaving(work: Work, lease: Lease)
    | Undoing(work: Work, lease: Lease)
    | Granted(work: Work, lease: Lease)
    | Awaiting(work: Work, lease: Lease)
    | Persisting(work: Work, lease: Lease, result: ExecutionResult)
    | ResultSaving(work: Work, lease: Lease, result: ExecutionResult)
    | Selecting(work: Work, lease: Lease, result: ExecutionResult)
    | Updating(work: Work, lease: Lease, result: ExecutionResult)
    | Rechecking(work: Work, lease: Lease, result: ExecutionResult)
    | Noting(work: Work, lease: Lease, done: Lease, result: ExecutionResult)
    | NoteSaving(work: Work, lease: Lease, done: Lease, result: ExecutionResult)
    | Replaying(work: Work, prior: Lease)
    | Returned(work: Work, under: Lease, result: ExecutionResult)
    | Orphaned(work: Work, prior: Lease)
    // ExecutionReconciliationService.reconcile_backend
    | Looking(runId: string, key: string)
    | Inspecting(runId: string, key: string, copy: SessionRecord)
    | Asking(runId: string, key: string, found: Lease)
    | Storing(runId: string, key: string, found: Lease, result: ExecutionResult)
    | EvidenceSaving(runId: string, key: string, found: Lease, result: ExecutionResult)
    | Concluded(runId: string, key: string, conclusion: Conclusion)
    // either
    | Stopped

  datatype Fault = Never | Before | After

  // How the gateway call ends: a result produced locally is never a success.
  datatype Outcome = Local(status: ExecutionStatus, output: string) | Remotely(result: ExecutionResult) | GatewayError

  datatype Choice = Choice(leaseId: string, now: string, fault: Fault, outcome: Outcome)

  // A gateway.execute call, and evidence that reconcile_backend stored.
  datatype GatewayCall = GatewayCall(work: Work, lease: Lease)
  datatype Stored = Stored(runId: string, key: string, found: Lease, result: ExecutionResult)

  datatype State = State(
    db: System,
    table: Table,
    remote: Remote,
    procs: map<nat, Phase>,
    issued: set<string>,
    works: map<string, Work>,
    calls: seq<GatewayCall>,
    stored: seq<Stored>)

  const START: State := State(EMPTY, map[], IDLE, map[], {}, map[], [], [])

  datatype Event =
    | Manager(action: SessionStore.Action)
    | Thread(event: RemoteStore.Event)
    | StartWorker(proc: nat, work: Work)
    | StartRecovery(proc: nat, runId: string, key: string)
    | Crash(proc: nat)
    | Go(proc: nat, choice: Choice)

  // What any other part of the runtime may write: only the two services here add evidence or leases.
  predicate Foreign(op: Op) { !op.AddResult? && !(op.AddMessage? && op.message.note.LeaseNote?) }

  predicate ForeignAction(procs: map<nat, Phase>, a: SessionStore.Action) {
    match a
    case Create(_) => true
    case Read(c, _, op) => c !in procs && Foreign(op)
    case Write(c) => c !in procs
    case Abandon(c) => c !in procs
  }

  // A result without run or worker is completed with those of the request (or of the lease).
  function Filled(r: ExecutionResult, runId: string, workerId: string): ExecutionResult {
    if r.runId.None? || r.workerId.None? then r.(runId := Some(runId), workerId := Some(workerId)) else r
  }

  predicate Admissible(r: ExecutionResult, executionId: string, runId: string, workerId: string) {
    && r.executionId == executionId
    && r.runId in {None, Some(runId)}
    && r.workerId in {None, Some(workerId)}
    && r.backend == "colab"
  }

  function FindLastResult(results: seq<ExecutionResult>, executionId: string): Option<ExecutionResult> {
    if results == [] then None
    else if results[|results| - 1].executionId == executionId then Some(results[|results| - 1])
    else FindLastResult(results[..|results| - 1], executionId)
  }

  // ExecutionReconciliationService.inspect on one session record and one lease lookup.
  datatype Inspection = Concludes(conclusion: Conclusion) | MustAsk(lease: Lease) | CrossEvidence

  function Inspect(record: SessionRecord, lease: Option<Lease>): Inspection {
    match lease
    case None => Concludes(NoLease)
    case Some(l) =>
      match FindLastResult(record.results, l.executionId)
      case None => MustAsk(l)
      case Some(r) =>
        if r.runId in {None, Some(l.runId)} && r.workerId in {None, Some(l.workerId)}
        then Concludes(Terminal(r)) else CrossEvidence
  }

  function Enter(s: State, p: nat, ph: Phase): State { s.(procs := s.procs[p := ph]) }

  // Sessions: read a copy for one operation, or carry the operation out.
  function Reading(s: State, p: nat, runId: string, op: Op): State {
    s.(db := Step(s.db, Read(p, runId, op)))
  }

  function Writing(s: State, p: nat): State { s.(db := Step(s.db, Write(p))) }

  // ExecutionLeaseService._reserve_sqlite
  ghost function ReserveStep(s: State, p: nat, c: Choice): State
    requires p in s.procs
  {
    match s.procs[p]
    case Inserting(w) =>
      var q := w.request;
      if c.fault != Never || HasBlankField(q) then Enter(s, p, Stopped)
      else if Slot(q.runId, q.key) in s.table then Enter(s, p, Clashed(w))
      else if c.leaseId in s.issued then s
      else
        var lease := NewLease(q, c.leaseId, c.now);
        Enter(s.(table := s.table[Slot(q.runId, q.key) := lease], issued := s.issued + {c.leaseId}), p, Auditing(w, lease))
    case Clashed(w) =>
      (match Lookup(s.table, w.request.runId, w.request.key)
       case Some(row) => if c.fault == Never && row.status == Done then Enter(s, p, Replaying(w, row)) else Enter(s, p, Stopped)
       case None => Enter(s, p, Stopped))
    case Auditing(w, lease) =>
      if c.fault != Never || lease.runId !in s.db.store then Enter(s, p, Undoing(w, lease))
      else Enter(Reading(s, p, lease.runId, AddMessage(Audit(lease))), p, AuditSaving(w, lease))
    case AuditSaving(w, lease) =>
      if p !in s.db.clients || c.fault == Before then Enter(s, p, Undoing(w, lease))
      else
        var written := WriteError(s.db, p) == None && c.fault == Never;
        Enter(Writing(s, p), p, if written then Granted(w, lease) else Undoing(w, lease))
    case Undoing(w, lease) =>
      if c.fault == Before then Enter(s, p, Stopped)
      else Enter(s.(table := map k | k in s.table && s.table[k].leaseId != lease.leaseId :: s.table[k]), p, Stopped)
    case _ => s
  }

  // The replay branch, gateway.execute and SessionManager.add_execution_result
  ghost function ExecuteStep(s: State, p: nat, c: Choice): State
    requires p in s.procs
  {
    match s.procs[p]
    case Replaying(w, prior) =>
      if c.fault != Never || w.request.runId !in s.db.store then Enter(s, p, Stopped)
      else
        (match FindResult(s.db.store[w.request.runId].results, prior.executionId)
         case Some(r) => Enter(s, p, Returned(w, prior, r))
         case None => Enter(s, p, Orphaned(w, prior)))
    case Granted(w, lease) =>
      Enter(s.(calls := s.calls + [GatewayCall(w, lease)]), p, Awaiting(w, lease))
    case Awaiting(w, lease) =>
      (match c.outcome
       case GatewayError => Enter(s, p, Stopped)
       case Local(status, output) =>
         if status == Success then s
         else Enter(s, p, Persisting(w, lease,
           ExecutionResult(w.request.executionId, status, output, "colab", Some(w.request.runId), Some(w.request.workerId))))
       case Remotely(r) =>
         if Answered(Sent(w), r) !in s.remote.replies then s
         else if !Admissible(r, w.request.executionId, w.request.runId, w.request.workerId) then Enter(s, p, Stopped)
         else Enter(s, p, Persisting(w, lease, Filled(r, w.request.runId, w.request.workerId))))
    case Persisting(w, lease, r) =>
      if c.fault != Never || lease.runId !in s.db.store then Enter(s, p, Stopped)
      else Enter(Reading(s, p, lease.runId, AddResult(r)), p, ResultSaving(w, lease, r))
    case ResultSaving(w, lease, r) =>
      if p !in s.db.clients || c.fault == Before then Enter(s, p, Stopped)
      else
        var written := WriteError(s.db, p) == None && c.fault == Never;
        Enter(Writing(s, p), p, if written then Selecting(w, lease, r) else Stopped)
    case _ => s
  }

  // ExecutionLeaseService.complete
  ghost function CompleteStep(s: State, p: nat, c: Choice): State
    requires p in s.procs
  {
    match s.procs[p]
    case Selecting(w, lease, r) =>
      if c.fault != Never then Enter(s, p, Stopped)
      else
        (match RowOf(s.table, lease.runId, lease.leaseId)
         case None => Enter(s, p, Stopped)
         case Some(row) => Enter(s, p, if row.status == Done then Returned(w, lease, r) else Updating(w, lease, r)))
    case Updating(w, lease, r) =>
      if c.fault == Before then Enter(s, p, Stopped)
      else
        (match RowOf(s.table, lease.runId, lease.leaseId)
         case Some(row) =>
           if row.status == Running then
             var done := Leases.Finished(row, c.now);
             Enter(s.(table := s.table[Slot(row.runId, row.key) := done]), p,
                   if c.fault == Never then Noting(w, lease, done, r) else Stopped)
           else Enter(s, p, Rechecking(w, lease, r))
         case None => Enter(s, p, Rechecking(w, lease, r)))
    case Rechecking(w, lease, r) =>
      (match RowOf(s.table, lease.runId, lease.leaseId)
       case Some(row) => Enter(s, p, if c.fault == Never && row.status == Done then Returned(w, lease, r) else Stopped)
       case None => Enter(s, p, Stopped))
    case Noting(w, lease, done, r) =>
      if c.fault != Never || lease.runId !in s.db.store then Enter(s, p, Stopped)
      else Enter(Reading(s, p, lease.runId, AddMessage(Audit(done))), p, NoteSaving(w, lease, done, r))
    case NoteSaving(w, lease, done, r) =>
      if p !in s.db.clients || c.fault == Before then Enter(s, p, Stopped)
      else
        var written := WriteError(s.db, p) == None && c.fault == Never;
        Enter(Writing(s, p), p, if written then Returned(w, lease, r) else Stopped)
    case _ => s
  }

  // ExecutionReconciliationService.reconcile_backend
  ghost function ReconcileStep(s: State, p: nat, c: Choice): State
    requires p in s.procs
  {
    match s.procs[p]
    case Looking(runId, key) =>
      if c.fault != Never || runId !in s.db.store then Enter(s, p, Stopped)
      else Enter(s, p, Inspecting(runId, key, s.db.store[runId]))
    case Inspecting(runId, key, copy) =>
      if c.fault != Never then Enter(s, p, Stopped)
      else
        (match Inspect(copy, Lookup(s.table, runId, key))
         case Concludes(conclusion) => Enter(s, p, Concluded(runId, key, conclusion))
         case MustAsk(l) => Enter(s, p, Asking(runId, key, l))
         case CrossEvidence => Enter(s, p, Stopped))
    case Asking(runId, key, found) =>
      if c.fault != Never then Enter(s, p, Stopped)
      else
        (match LookUp(s.remote.rows, found.executionId, key)
         case Mismatch => Enter(s, p, Stopped)
         case Absent => Enter(s, p, Concluded(runId, key, NoResult))
         case Evidence(r) =>
           if Admissible(r, found.executionId, runId, found.workerId)
           then Enter(s, p, Storing(runId, key, found, Filled(r, runId, found.workerId)))
           else Enter(s, p, Stopped))
    case Storing(runId, key, found, r) =>
      if c.fault != Never || runId !in s.db.store then Enter(s, p, Stopped)
      else Enter(Reading(s, p, runId, AddResult(r)), p, EvidenceSaving(runId, key, found, r))
    case EvidenceSaving(runId, key, found, r) =>
      if p !in s.db.clients || c.fault == Before then Enter(s, p, Stopped)
      else if WriteError(s.db, p) != None then Enter(Writing(s, p), p, Stopped)
      else
        Enter(Writing(s, p).(stored := s.stored + [Stored(runId, key, found, r)]), p,
              if c.fault == Never then Concluded(runId, key, Terminal(r)) else Stopped)
    case _ => s
  }

  predicate Reserving(ph: Phase) { ph.Inserting? || ph.Clashed? || ph.Auditing? || ph.AuditSaving? || ph.Undoing? }

  predicate Completing(ph: Phase) { ph.Selecting? || ph.Updating? || ph.Rechecking? || ph.Noting? || ph.NoteSaving? }

  predicate Reconciling(ph: Phase) {
    ph.Looking? || ph.Inspecting? || ph.Asking? || ph.Storing? || ph.EvidenceSaving? || ph.Concluded?
  }

  ghost function Progress(s: State, p: nat, c: Choice): State
    requires p in s.procs
  {
    var ph := s.procs[p];
    if Reserving(ph) then ReserveStep(s, p, c)
    else if Completing(ph) then CompleteStep(s, p, c)
    else if Reconciling(ph) then ReconcileStep(s, p, c)
    else ExecuteStep(s, p, c)
  }

  ghost function Happen(s: State, e: Event): State {
    match e
    case Manager(a) => if ForeignAction(s.procs, a) then s.(db := Step(s.db, a)) else s
    // A request reaches the remote service only if some worker's gateway call sent it; it may arrive any number of times.
    case Thread(t) =>
      if t.Arrive? && !(exists i :: 0 <= i < |s.calls| && Sent(s.calls[i].work) == t.request) then s
      else s.(remote := Next(s.remote, t))
    case StartWorker(p, w) =>
      if p in s.procs || p in s.db.clients || w.request.executionId in s.works then s
      else Enter(s.(works := s.works[w.request.executionId := w]), p, Inserting(w))
    case StartRecovery(p, runId, key) =>
      if p in s.procs || p in s.db.clients then s else Enter(s, p, Looking(runId, key))
    case Crash(p) =>
      if p in s.procs then s.(procs := s.procs - {p}, db := Step(s.db, Abandon(p))) else s
    case Go(p, c) => if p in s.procs then Progress(s, p, c) else s
  }

  ghost function History(s: State, es: seq<Event>): State
    decreases |es|
  {
    if es == [] then s else History(Happen(s, es[0]), es[1..])
  }
}
