/**
  Stopping the reminders of one application: the rules of
  src/queue/drip/drip.constants.ts, the rows of
  src/email-sequence/email-sequence.service.ts, and the two places that cancel
  them, the teardown at a status change (src/queue/drip/drip.service.ts) and the
  re-check when a job runs (src/queue/drip/drip.processor.ts).
 */
module DripCancellation {
  import opened Options
  import opened LoanStatus
  import W = LoanWorkflow
  import opened DripSchedule

  /* -------------------------------------------------------------- the rules */

  function StatusRank(s: Status): Option<nat> {
    match s
    case Received => Some(0)
    case PendingCall => Some(1)
    case InReview => Some(2)
    case BankVerificationPending => Some(3)
    case BankVerificationComplete => Some(4)
    case AgreementSent => Some(5)
    case AgreementSigned => Some(6)
    case VerificationDepositSent => Some(7)
    case VerificationDepositConfirmed => Some(8)
    case Underwriting => Some(9)
    case Approved => Some(10)
    case Funded => Some(11)
    case Declined => None
    case Withdrawn => None
    case Expired => None
  }

  datatype Trigger = Suppressed | StatusReached(status: Status) | CalledIn | BankVerified

  datatype Context = Context(status: Status, calledIn: bool, bankVerified: bool, suppressed: bool)

  /** Past in_review the calls stop; from bank_verification_complete the verification reminders do. */
  function FirstRankPast(key: SequenceKey): nat {
    match key
    case CallIn => 3
    case BankVerification => 4
  }

  function EvaluateCancellation(key: SequenceKey, c: Context): Option<Trigger> {
    var rank := StatusRank(c.status);
    if c.suppressed then Some(Suppressed)
    else if IsTerminal(c.status) then Some(StatusReached(c.status))
    else if key == CallIn && c.calledIn then Some(CalledIn)
    else if key == BankVerification && c.bankVerified then Some(BankVerified)
    else if rank.Some? && rank.value >= FirstRankPast(key) then Some(StatusReached(c.status))
    else None
  }

  function CancelledBy(status: Status): seq<SequenceKey> {
    if IsTerminal(status) then [CallIn, BankVerification]
    else
      var rank := StatusRank(status);
      var calls := if rank.Some? && rank.value > 2 then [CallIn] else [];
      var bank := if rank.Some? && rank.value >= 4 then [BankVerification] else [];
      calls + bank
  }

  method SequencesCancelledBy(status: Status) returns (cancelled: seq<SequenceKey>)
    ensures cancelled == CancelledBy(status)
  {
    if IsTerminal(status) { return [CallIn, BankVerification]; }
    var rank := StatusRank(status);
    if rank == None { return []; }
    cancelled := [];
    if rank.value > 2 { cancelled := cancelled + [CallIn]; }
    if rank.value >= 4 { cancelled := cancelled + [BankVerification]; }
  }

  /** The eager list is the lazy rule, read off the status alone. */
  lemma EagerListIsLazyRule(key: SequenceKey, status: Status)
    ensures key in CancelledBy(status)
            <==> EvaluateCancellation(key, Context(status, false, false, false)).Some?
  {
  }

  /* --------------------------------------------------------------- the rows */

  datatype RowStatus = Scheduled | Sent | Cancelled | Failed

  datatype StepRow = StepRow(scheduledFor: int, status: RowStatus, cancelledAt: Option<int>, trigger: Option<Trigger>)

  datatype Job = Job(key: SequenceKey, step: nat)

  type Rows = map<Job, StepRow>

  function Upserted(rows: Rows, job: Job, at: int): Rows {
    if job !in rows then rows[job := StepRow(at, Scheduled, None, None)]
    else if rows[job].status == Scheduled then rows[job := rows[job].(scheduledFor := at)]
    else rows
  }

  function Marked(rows: Rows, job: Job, status: RowStatus): Rows {
    if job in rows then rows[job := rows[job].(status := status)] else rows
  }

  function CancelRow(row: StepRow, trigger: Trigger, now: int): StepRow {
    if row.status == Scheduled
    then row.(status := Cancelled, cancelledAt := Some(now), trigger := Some(trigger)) else row
  }

  function StepCancelled(rows: Rows, job: Job, trigger: Trigger, now: int): Rows {
    if job in rows then rows[job := CancelRow(rows[job], trigger, now)] else rows
  }

  function SequencesStopped(rows: Rows, keys: set<SequenceKey>, trigger: Trigger, now: int): Rows {
    map j | j in rows :: if j.key in keys then CancelRow(rows[j], trigger, now) else rows[j]
  }

  function ScheduledIn(rows: Rows, keys: set<SequenceKey>): set<Job> {
    set j | j in rows && j.key in keys && rows[j].status == Scheduled
  }

  function KeysOf(keys: seq<SequenceKey>): set<SequenceKey> {
    set k | k in keys
  }

  lemma OneMoreSequenceCounted(rows: Rows, keys: set<SequenceKey>, key: SequenceKey, trigger: Trigger, now: int)
    ensures |ScheduledIn(rows, keys + {key})|
         == |ScheduledIn(rows, keys)| + |ScheduledIn(SequencesStopped(rows, keys, trigger, now), {key})|
  {
    var before, added := ScheduledIn(rows, keys), ScheduledIn(SequencesStopped(rows, keys, trigger, now), {key});
    assert ScheduledIn(rows, keys + {key}) == before + added;
    assert before !! added;
  }

  /** Stopping one more sequence: the rows compose, and only its own scheduled rows are new. */
  lemma OneMoreSequence(rows: Rows, keys: set<SequenceKey>, key: SequenceKey, trigger: Trigger, now: int)
    ensures var stopped := SequencesStopped(rows, keys, trigger, now);
            && SequencesStopped(stopped, {key}, trigger, now) == SequencesStopped(rows, keys + {key}, trigger, now)
            && |ScheduledIn(rows, keys + {key})| == |ScheduledIn(rows, keys)| + |ScheduledIn(stopped, {key})|
  {
    OneMoreSequenceCounted(rows, keys, key, trigger, now);
  }

  /** The table of one application, each method one statement. */
  class SequenceTable {
    var rows: Rows

    constructor ()
      ensures rows == map[]
    {
      rows := map[];
    }

    /** Find or create, then move the time of a row that is still scheduled. */
    method UpsertSequenceStep(job: Job, at: int)
      modifies this
      ensures rows == Upserted(old(rows), job, at)
    {
      if job !in rows {
        rows := rows[job := StepRow(at, Scheduled, None, None)];
      }
      if rows[job].status == Scheduled {
        rows := rows[job := rows[job].(scheduledFor := at)];
      }
    }

    /** Whatever the row was, it is sent now; its time and any cancellation on record stay, as do all other rows. */
    method MarkSent(job: Job)
      modifies this
      ensures rows.Keys == old(rows).Keys
      ensures job in rows ==> rows[job] == old(rows)[job].(status := Sent)
      ensures forall j | j in rows && j != job :: rows[j] == old(rows)[j]
    {
      if job in rows { rows := rows[job := rows[job].(status := Sent)]; }
    }

    /** Likewise for a send that has failed for good. */
    method MarkFailed(job: Job)
      modifies this
      ensures rows.Keys == old(rows).Keys
      ensures job in rows ==> rows[job] == old(rows)[job].(status := Failed)
      ensures forall j | j in rows && j != job :: rows[j] == old(rows)[j]
    {
      if job in rows { rows := rows[job := rows[job].(status := Failed)]; }
    }

    /** Only a row still scheduled is cancelled, with its trigger; a row already settled keeps its story. */
    method CancelStep(job: Job, trigger: Trigger, now: int)
      modifies this
      ensures rows.Keys == old(rows).Keys
      ensures job in rows && old(rows)[job].status == Scheduled ==>
                && rows[job].status == Cancelled && rows[job].trigger == Some(trigger)
                && rows[job].cancelledAt == Some(now) && rows[job].scheduledFor == old(rows)[job].scheduledFor
      ensures job in rows && old(rows)[job].status != Scheduled ==> rows[job] == old(rows)[job]
      ensures forall j | j in rows && j != job :: rows[j] == old(rows)[j]
    {
      if job in rows && rows[job].status == Scheduled {
        rows := rows[job := rows[job].(status := Cancelled, cancelledAt := Some(now), trigger := Some(trigger))];
      }
    }

    method CancelSequence(key: SequenceKey, trigger: Trigger, now: int) returns (count: nat)
      modifies this
      ensures rows == SequencesStopped(old(rows), {key}, trigger, now)
      ensures count == |ScheduledIn(old(rows), {key})|
    {
      count := |ScheduledIn(rows, {key})|;
      rows := SequencesStopped(rows, {key}, trigger, now);
    }

    /** The drip service's loop: one update per sequence, accumulating the count. */
    method CancelSequences(keys: seq<SequenceKey>, trigger: Trigger, now: int) returns (cancelled: nat)
      modifies this
      ensures rows == SequencesStopped(old(rows), KeysOf(keys), trigger, now)
      ensures cancelled == |ScheduledIn(old(rows), KeysOf(keys))|
    {
      cancelled := 0;
      ghost var was := rows;
      for i := 0 to |keys|
        invariant rows == SequencesStopped(was, KeysOf(keys[..i]), trigger, now)
        invariant cancelled == |ScheduledIn(was, KeysOf(keys[..i]))|
      {
        OneMoreSequence(was, KeysOf(keys[..i]), keys[i], trigger, now);
        assert KeysOf(keys[..i + 1]) == KeysOf(keys[..i]) + {keys[i]};
        var stopped := CancelSequence(keys[i], trigger, now);
        cancelled := cancelled + stopped;
      }
      assert keys[..|keys|] == keys;
    }

    /** The drip service's start: every planned step recorded, a failed write skipped. */
    method StartSequences(plan: seq<Send>, written: seq<bool>)
      requires |written| == |plan|
      modifies this
      ensures rows == Planned(old(rows), plan, written, |plan|)
    {
      for i := 0 to |plan|
        invariant rows == Planned(old(rows), plan, written, i)
      {
        if written[i] {
          UpsertSequenceStep(Job(plan[i].slot.key, plan[i].slot.step), plan[i].at);
        }
      }
    }
  }

  /** The rows after the first `n` sends of the plan; `written` says which writes got through. */
  function Planned(rows: Rows, plan: seq<Send>, written: seq<bool>, n: nat): Rows
    requires n <= |plan| == |written|
  {
    if n == 0 then rows
    else
      var before := Planned(rows, plan, written, n - 1);
      if written[n - 1]
      then Upserted(before, Job(plan[n - 1].slot.key, plan[n - 1].slot.step), plan[n - 1].at)
      else before
  }

  /* -------------------------------------------------------------- a job runs */

  /**
    What became of the send: delivered and recorded, withheld because the borrower had
    just been suppressed, or an error, which may come after the mail has left
    (`mailed`) when it is the row that could not be marked.
   */
  datatype Delivery = Delivered | Withheld | Errored(mailed: bool, lastAttempt: bool)

  function ContextOf(f: W.File, suppressed: bool): Context {
    Context(f.status, f.calledIn, f.bankVerified, suppressed)
  }

  function Processed(rows: Rows, f: W.File, suppressed: bool, job: Job, d: Delivery, now: int): Rows {
    var decision := EvaluateCancellation(job.key, ContextOf(f, suppressed));
    if decision.Some? then StepCancelled(rows, job, decision.value, now)
    else match d
         case Delivered => Marked(rows, job, Sent)
         case Withheld => StepCancelled(rows, job, Suppressed, now)
         case Errored(_, last) => if last then Marked(rows, job, Failed) else rows
  }

  /** A mail leaves when the rules, re-read now, do not cancel the step, and the send gets that far. */
  predicate SendsMail(f: W.File, suppressed: bool, job: Job, d: Delivery) {
    (d.Delivered? || (d.Errored? && d.mailed)) && EvaluateCancellation(job.key, ContextOf(f, suppressed)) == None
  }

  class Processor {
    const table: SequenceTable
    var outbox: seq<Job>

    constructor (table: SequenceTable)
      ensures this.table == table && outbox == []
    {
      this.table := table;
      outbox := [];
    }

    method Process(f: W.File, suppressed: bool, job: Job, d: Delivery, now: int)
      modifies this, table
      ensures table.rows == Processed(old(table.rows), f, suppressed, job, d, now)
      ensures outbox == old(outbox) + if SendsMail(f, suppressed, job, d) then [job] else []
    {
      ghost var was := table.rows;
      var decision := EvaluateCancellation(job.key, ContextOf(f, suppressed));
      if decision.Some? {
        table.CancelStep(job, decision.value, now);
        assert table.rows == StepCancelled(was, job, decision.value, now);
        return;
      }
      match d
      case Delivered =>
        outbox := outbox + [job];
        table.MarkSent(job);
        assert table.rows == Marked(was, job, Sent);
      case Withheld =>
        table.CancelStep(job, Suppressed, now);
        assert table.rows == StepCancelled(was, job, Suppressed, now);
      case Errored(mailed, last) =>
        if mailed { outbox := outbox + [job]; }
        if last { table.MarkFailed(job); }
        assert table.rows == if last then Marked(was, job, Failed) else was;
    }
  }
}
