/**
  Any number of publishers on one outbox table, interleaved in any way and claiming any times: what lease
  tokens guarantee, and what a publication date means.
 */
module OutboxProtocol {
  import opened Domain
  import opened Outbox

  /** `delivered` records under which tokens the sink has accepted a message. */
  datatype State = State(rows: seq<OutboxRow>, delivered: set<(nat, nat)>)

  const EMPTY := State([], {})

  datatype Op =
    | Insert(row: OutboxRow)
    | Lease(chosen: seq<nat>, publisher: string, now: Time, ttl: int, limit: int)
    | Deliver(id: nat, token: nat)
    | Mark(id: nat, publisher: string, token: nat, now: Time)
    | Retry(id: nat, publisher: string, token: nat, next: Time, error: string)

  /** A row as a store transaction inserts it. */
  predicate Fresh(row: OutboxRow) {
    && row.attempts == 0 && row.leaseToken == 0
    && row.publishedAt.None? && row.leaseOwner.None? && row.leaseUntil.None? && row.lastError.None?
  }

  /** Only leased messages reach the sink, and a publisher marks a message only after the sink took it. */
  ghost predicate Enabled(s: State, op: Op) {
    match op
    case Insert(row) => Fresh(row) && forall i :: 0 <= i < |s.rows| ==> s.rows[i].id < row.id
    case Lease(chosen, publisher, now, ttl, limit) => publisher != "" && 0 < ttl && IsBatch(s.rows, chosen, now, limit)
    case Deliver(id, token) => exists i :: 0 <= i < |s.rows| && s.rows[i].id == id && 1 <= token <= s.rows[i].leaseToken
    case Mark(id, _, token, _) => (id, token) in s.delivered
    case Retry(_, _, _, _, _) => true
  }

  function After(s: State, op: Op): State {
    match op
    case Insert(row) => s.(rows := s.rows + [row])
    case Lease(chosen, publisher, now, ttl, _) => s.(rows := Leased(s.rows, chosen, publisher, now, ttl))
    case Deliver(id, token) => s.(delivered := s.delivered + {(id, token)})
    case Mark(id, publisher, token, now) => s.(rows := Published(s.rows, id, publisher, token, now))
    case Retry(id, publisher, token, next, error) => s.(rows := Retried(s.rows, id, publisher, token, next, error))
  }

  ghost predicate Leads(s: State, ops: seq<Op>, s': State)
    decreases |ops|
  {
    if ops == [] then s' == s else Enabled(s, ops[0]) && Leads(After(s, ops[0]), ops[1..], s')
  }

  // The invariant

  predicate RowOk(row: OutboxRow, delivered: set<(nat, nat)>) {
    && row.attempts == row.leaseToken
    && (row.leaseOwner.Some? <==> row.leaseUntil.Some?)
    && (row.publishedAt.Some? ==> row.leaseOwner.None? && (row.id, row.leaseToken) in delivered)
  }

  ghost predicate Valid(s: State) {
    && Numbered(s.rows)
    && forall i :: 0 <= i < |s.rows| ==> RowOk(s.rows[i], s.delivered)
  }

  lemma StepKeepsValid(s: State, op: Op)
    requires Valid(s) && Enabled(s, op)
    ensures Valid(After(s, op))
  {
  }

  /** Attempts count leases, leases are whole, and a published row was delivered under its own token. */
  lemma {:induction false} AlwaysValid(s: State, ops: seq<Op>, s': State)
    requires Valid(s) && Leads(s, ops, s')
    ensures Valid(s')
    decreases |ops|
  {
    if ops != [] {
      StepKeepsValid(s, ops[0]);
      AlwaysValid(After(s, ops[0]), ops[1..], s');
    }
  }

  // Tokens

  /** Superseded by a newer lease, or given back by publishing or rescheduling. */
  predicate Spent(row: OutboxRow, token: nat) {
    token < row.leaseToken || (token == row.leaseToken && row.leaseOwner.None?)
  }

  /** The announcement never changes, tokens never go back, and a published row stays exactly as it is. */
  predicate RowGrows(row: OutboxRow, row': OutboxRow) {
    && row'.id == row.id && row'.aggregateId == row.aggregateId && row'.eventType == row.eventType
    && row'.payload == row.payload && row'.createdAt == row.createdAt
    && row.leaseToken <= row'.leaseToken
    && (row.publishedAt.Some? ==> row' == row)
  }

  /** A spent token stays spent, however the row changes. */
  predicate TokensStaySpent(row: OutboxRow, row': OutboxRow) {
    row.leaseToken == row'.leaseToken && row.leaseOwner.None? ==> row'.leaseOwner.None?
  }

  lemma StepGrows(s: State, op: Op, i: nat)
    requires Valid(s) && Enabled(s, op) && i < |s.rows|
    ensures i < |After(s, op).rows|
    ensures RowGrows(s.rows[i], After(s, op).rows[i]) && TokensStaySpent(s.rows[i], After(s, op).rows[i])
  {
  }

  lemma {:induction false} RowsGrow(s: State, ops: seq<Op>, s': State, i: nat)
    requires Valid(s) && Leads(s, ops, s') && i < |s.rows|
    ensures i < |s'.rows| && RowGrows(s.rows[i], s'.rows[i]) && TokensStaySpent(s.rows[i], s'.rows[i])
    decreases |ops|
  {
    if ops != [] {
      StepGrows(s, ops[0], i);
      StepKeepsValid(s, ops[0]);
      RowsGrow(After(s, ops[0]), ops[1..], s', i);
    }
  }

  /**
    Once its token is superseded or released, a publisher can neither publish nor reschedule the row,
    whatever has happened since, whoever it claims to be and whatever time it claims.
   */
  lemma SpentTokensRejected(s: State, ops: seq<Op>, s': State, i: nat, publisher: string, token: nat)
    requires Valid(s) && Leads(s, ops, s') && i < |s.rows| && Spent(s.rows[i], token)
    ensures i < |s'.rows| && Spent(s'.rows[i], token)
    ensures forall now :: Published(s'.rows, s.rows[i].id, publisher, token, now) == s'.rows
    ensures forall next, error :: Retried(s'.rows, s.rows[i].id, publisher, token, next, error) == s'.rows
  {
    RowsGrow(s, ops, s', i);
    AlwaysValid(s, ops, s');
    forall j | 0 <= j < |s'.rows|
      ensures !Answers(s'.rows[j], s.rows[i].id, publisher, token)
    {
      assert j < i ==> s'.rows[j].id < s'.rows[i].id;
      assert j > i ==> s'.rows[i].id < s'.rows[j].id;
    }
  }

  /** A row that was published is never leased, rescheduled or published again. */
  lemma PublishedForGood(s: State, ops: seq<Op>, s': State, i: nat)
    requires Valid(s) && Leads(s, ops, s') && i < |s.rows| && s.rows[i].publishedAt.Some?
    ensures i < |s'.rows| && s'.rows[i] == s.rows[i]
    ensures forall now :: !Due(s'.rows[i], now)
  {
    RowsGrow(s, ops, s', i);
  }

  /** From the empty table on: whatever is published was accepted by the sink under the row's last token. */
  lemma PublishedWasDelivered(ops: seq<Op>, s: State, i: nat)
    requires Leads(EMPTY, ops, s) && i < |s.rows| && s.rows[i].publishedAt.Some?
    ensures (s.rows[i].id, s.rows[i].leaseToken) in s.delivered
    ensures s.rows[i].attempts == s.rows[i].leaseToken
  {
    AlwaysValid(EMPTY, ops, s);
  }

  // Dates

  predicate Takes(op: Op, i: nat) {
    op.Lease? && i in op.chosen
  }

  lemma ReleasedStays(s: State, op: Op, i: nat)
    requires Valid(s) && Enabled(s, op) && i < |s.rows| && s.rows[i].leaseOwner == None && !Takes(op, i)
    ensures i < |After(s, op).rows| && After(s, op).rows[i] == s.rows[i]
  {
  }

  /**
    A row that nobody holds, so one that was just rescheduled, changes in no way until some publisher leases
    it, and the first that does claims no time before its date.
   */
  lemma {:induction false} NoLeaseBeforeItsTime(s: State, ops: seq<Op>, s': State, i: nat, j: nat)
    requires Valid(s) && Leads(s, ops, s') && i < |s.rows| && s.rows[i].leaseOwner == None
    requires j < |ops| && Takes(ops[j], i) && forall k :: 0 <= k < j ==> !Takes(ops[k], i)
    ensures s.rows[i].nextAttemptAt <= ops[j].now && s.rows[i].publishedAt == None
    decreases |ops|
  {
    if j == 0 {
      assert Due(s.rows[i], ops[0].now);
    } else {
      ReleasedStays(s, ops[0], i);
      StepKeepsValid(s, ops[0]);
      NoLeaseBeforeItsTime(After(s, ops[0]), ops[1..], s', i, j - 1);
    }
  }

  predicate Returns(op: Op, id: nat) {
    op.Retry? && op.id == id
  }

  lemma HeldStays(s: State, op: Op, i: nat)
    requires Valid(s) && Enabled(s, op) && i < |s.rows| && s.rows[i].leaseUntil.Some?
    requires !Takes(op, i) && !Returns(op, s.rows[i].id)
    ensures i < |After(s, op).rows|
    ensures After(s, op).rows[i] == s.rows[i] || (op.Mark? && After(s, op).rows[i].publishedAt.Some?)
  {
  }

  /** A leased row goes to no other publisher before the lease ends, unless its holder reschedules it. */
  lemma {:induction false} NoLeaseDuringAnother(s: State, ops: seq<Op>, s': State, i: nat, j: nat)
    requires Valid(s) && Leads(s, ops, s') && i < |s.rows| && s.rows[i].leaseUntil.Some?
    requires j < |ops| && Takes(ops[j], i)
    requires forall k :: 0 <= k < j ==> !Takes(ops[k], i) && !Returns(ops[k], s.rows[i].id)
    ensures s.rows[i].leaseUntil.value <= ops[j].now
    decreases |ops|
  {
    if j == 0 {
      assert Due(s.rows[i], ops[0].now);
    } else {
      HeldStays(s, ops[0], i);
      StepKeepsValid(s, ops[0]);
      var next := After(s, ops[0]);
      if next.rows[i].publishedAt.Some? {
        NeverTaken(next, ops[1..], s', i, j - 1);
      } else {
        NoLeaseDuringAnother(next, ops[1..], s', i, j - 1);
      }
    }
  }

  lemma {:induction false} NeverTaken(s: State, ops: seq<Op>, s': State, i: nat, j: nat)
    requires Valid(s) && Leads(s, ops, s') && i < |s.rows| && s.rows[i].publishedAt.Some? && j < |ops|
    ensures !Takes(ops[j], i)
    decreases |ops|
  {
    if j > 0 {
      StepGrows(s, ops[0], i);
      StepKeepsValid(s, ops[0]);
      NeverTaken(After(s, ops[0]), ops[1..], s', i, j - 1);
    }
  }
}
