/** The outbox table: leasing of messages in batches, publishing and rescheduling under lease tokens. */
module Outbox {
  import opened Domain
  import Store

  /** One row; the payload is the event that the row announces. */
  datatype OutboxRow = OutboxRow(
    id: nat,
    aggregateType: string,
    aggregateId: string,
    eventType: EventType,
    payload: Store.RunEvent,
    attempts: nat,
    nextAttemptAt: Time,
    publishedAt: Option<Time>,
    createdAt: Time,
    leaseOwner: Option<string>,
    leaseUntil: Option<Time>,
    leaseToken: nat,
    lastError: Option<string>)

  datatype Message = Message(
    id: nat,
    aggregateType: string,
    aggregateId: string,
    eventType: EventType,
    payload: Store.RunEvent,
    attempts: nat,
    createdAt: Time,
    leaseOwner: string,
    leaseUntil: Time,
    leaseToken: nat)

  datatype OutboxError = NoMessages | TokenLost | InvalidConfig

  /** Ids are handed out in ascending order, so no two rows share one. */
  ghost predicate Numbered(rows: seq<OutboxRow>) {
    forall i, j :: 0 <= i < j < |rows| ==> rows[i].id < rows[j].id
  }

  predicate Due(row: OutboxRow, now: Time) {
    && row.publishedAt.None?
    && row.nextAttemptAt <= now
    && (row.leaseUntil.None? || row.leaseUntil.value <= now)
  }

  predicate Sooner(a: OutboxRow, b: OutboxRow) {
    a.nextAttemptAt < b.nextAttemptAt || (a.nextAttemptAt == b.nextAttemptAt && a.id < b.id)
  }

  function LeaseRow(row: OutboxRow, publisher: string, now: Time, ttl: int): OutboxRow {
    row.(leaseOwner := Some(publisher), leaseUntil := Some(now + ttl), leaseToken := row.leaseToken + 1,
    attempts := row.attempts + 1, lastError := None)
  }

  function MessageOf(row: OutboxRow): Message
    requires row.leaseOwner.Some? && row.leaseUntil.Some?
  {
    Message(row.id, row.aggregateType, row.aggregateId, row.eventType, row.payload, row.attempts, row.createdAt,
            row.leaseOwner.value, row.leaseUntil.value, row.leaseToken)
  }

  /** The places of the soonest due rows, soonest first: all of them, or as many as the limit allows. */
  ghost predicate IsBatch(rows: seq<OutboxRow>, chosen: seq<nat>, now: Time, limit: int) {
    && |chosen| <= limit
    && (forall k :: 0 <= k < |chosen| ==> chosen[k] < |rows| && Due(rows[chosen[k]], now))
    && (forall j, k :: 0 <= j < k < |chosen| ==> Sooner(rows[chosen[j]], rows[chosen[k]]))
    && (forall i :: 0 <= i < |rows| && Due(rows[i], now) && i !in chosen ==>
          |chosen| == limit && forall k :: 0 <= k < |chosen| ==> Sooner(rows[chosen[k]], rows[i]))
  }

  function Leased(rows: seq<OutboxRow>, chosen: seq<nat>, publisher: string, now: Time, ttl: int): seq<OutboxRow> {
    seq(|rows|, i requires 0 <= i < |rows| => if i in chosen then LeaseRow(rows[i], publisher, now, ttl) else rows[i])
  }

  /** The row is leased under this token and not yet published. */
  predicate Answers(row: OutboxRow, id: nat, publisher: string, token: nat) {
    row.id == id && row.publishedAt.None? && row.leaseOwner == Some(publisher) && row.leaseToken == token
  }

  predicate Publishable(row: OutboxRow, id: nat, publisher: string, token: nat, now: Time) {
    Answers(row, id, publisher, token) && row.leaseUntil.Some? && now < row.leaseUntil.value
  }

  function PublishedRow(row: OutboxRow, now: Time): OutboxRow {
    row.(publishedAt := Some(now), leaseOwner := None, leaseUntil := None, lastError := None)
  }

  function RetriedRow(row: OutboxRow, next: Time, error: string): OutboxRow {
    row.(nextAttemptAt := next, leaseOwner := None, leaseUntil := None, lastError := Some(error))
  }

  function Published(rows: seq<OutboxRow>, id: nat, publisher: string, token: nat, now: Time): seq<OutboxRow> {
    seq(|rows|, i requires 0 <= i < |rows| =>
      if Publishable(rows[i], id, publisher, token, now) then PublishedRow(rows[i], now) else rows[i])
  }

  function Retried(rows: seq<OutboxRow>, id: nat, publisher: string, token: nat, next: Time, error: string): seq<OutboxRow> {
    seq(|rows|, i requires 0 <= i < |rows| =>
      if Answers(rows[i], id, publisher, token) then RetriedRow(rows[i], next, error) else rows[i])
  }

  /** What the publisher is handed for a batch. */
  ghost predicate Describes(messages: seq<Message>, rows: seq<OutboxRow>, chosen: seq<nat>, publisher: string, now: Time, ttl: int) {
    && |messages| == |chosen|
    && forall k :: 0 <= k < |chosen| ==>
         chosen[k] < |rows| && messages[k] == MessageOf(LeaseRow(rows[chosen[k]], publisher, now, ttl))
  }

  /** The soonest due row, if any row is due. */
  ghost predicate IsSoonest(rows: seq<OutboxRow>, first: Option<nat>, now: Time) {
    match first
    case None => forall i :: 0 <= i < |rows| ==> !Due(rows[i], now)
    case Some(n) =>
      && n < |rows| && Due(rows[n], now)
      && forall i :: 0 <= i < |rows| && Due(rows[i], now) && i != n ==> Sooner(rows[n], rows[i])
  }

  /** Places picked one after the other, each the soonest due row that was left. */
  ghost predicate Picked(rows: seq<OutboxRow>, chosen: seq<nat>, now: Time) {
    && (forall k :: 0 <= k < |chosen| ==> chosen[k] < |rows| && Due(rows[chosen[k]], now))
    && (forall j, k :: 0 <= j < k < |chosen| ==> Sooner(rows[chosen[j]], rows[chosen[k]]))
    && (forall i, k :: 0 <= i < |rows| && Due(rows[i], now) && i !in chosen && 0 <= k < |chosen|
                       ==> Sooner(rows[chosen[k]], rows[i]))
  }

  /** A leased row is no longer due, so the soonest due row is the next one of the batch. */
  lemma PickNext(rows: seq<OutboxRow>, chosen: seq<nat>, leased: seq<OutboxRow>, n: nat, publisher: string, now: Time, ttl: int)
    requires Picked(rows, chosen, now) && 0 < ttl && leased == Leased(rows, chosen, publisher, now, ttl)
    requires IsSoonest(leased, Some(n), now)
    ensures Picked(rows, chosen + [n], now) && leased[n] == rows[n]
    ensures Leased(rows, chosen + [n], publisher, now, ttl) == leased[n := LeaseRow(leased[n], publisher, now, ttl)]
  {
    assert n !in chosen;
    forall i | 0 <= i < |rows| && Due(rows[i], now) && i !in chosen + [n]
      ensures Sooner(rows[n], rows[i])
    {
      assert leased[i] == rows[i];
    }
  }

  lemma LeasedNumbered(rows: seq<OutboxRow>, chosen: seq<nat>, publisher: string, now: Time, ttl: int)
    requires Numbered(rows)
    ensures Numbered(Leased(rows, chosen, publisher, now, ttl))
    ensures Leased(rows, [], publisher, now, ttl) == rows
  {
  }

  /** Picking ends at the limit or when nothing is due any more; either way a batch was picked. */
  lemma PickedAll(rows: seq<OutboxRow>, chosen: seq<nat>, leased: seq<OutboxRow>, publisher: string, now: Time, ttl: int, limit: int)
    requires Picked(rows, chosen, now) && |chosen| <= limit && leased == Leased(rows, chosen, publisher, now, ttl)
    requires |chosen| == limit || IsSoonest(leased, None, now)
    ensures IsBatch(rows, chosen, now, limit)
  {
    forall i | 0 <= i < |rows| && Due(rows[i], now) && i !in chosen
      ensures |chosen| == limit
    {
      assert leased[i] == rows[i];
    }
  }

  /** A batch holds the due rows with the earliest dates, the earlier ids first among equals. */
  lemma BatchIsSoonestDue(rows: seq<OutboxRow>, chosen: seq<nat>, now: Time, limit: int, k: nat)
    requires IsBatch(rows, chosen, now, limit) && k < |chosen|
    ensures chosen[k] < |rows|
    ensures var row := rows[chosen[k]];
            && row.publishedAt == None && row.nextAttemptAt <= now
            && (row.leaseUntil == None || row.leaseUntil.value <= now)
            && (forall j :: k < j < |chosen| ==>
                  && chosen[j] < |rows|
                  && (row.nextAttemptAt < rows[chosen[j]].nextAttemptAt
                      || (row.nextAttemptAt == rows[chosen[j]].nextAttemptAt && row.id < rows[chosen[j]].id)))
            && (forall i :: 0 <= i < |rows| && i !in chosen && rows[i].publishedAt == None && rows[i].nextAttemptAt <= now
                            && (rows[i].leaseUntil == None || rows[i].leaseUntil.value <= now) ==>
                  && |chosen| == limit
                  && (row.nextAttemptAt < rows[i].nextAttemptAt
                      || (row.nextAttemptAt == rows[i].nextAttemptAt && row.id < rows[i].id)))
  {
    forall i | 0 <= i < |rows| && rows[i].publishedAt == None && rows[i].nextAttemptAt <= now
      ensures rows[i].leaseUntil == None || rows[i].leaseUntil.value <= now ==> Due(rows[i], now)
    {
    }
  }

  /** The sink is handed the announcement as it was written, with the lease it goes out under. */
  predicate Hands(m: Message, row: OutboxRow, publisher: string, now: Time, ttl: int) {
    && m.id == row.id && m.aggregateType == row.aggregateType && m.aggregateId == row.aggregateId
    && m.eventType == row.eventType && m.payload == row.payload && m.createdAt == row.createdAt
    && m.attempts == row.attempts + 1 && m.leaseToken == row.leaseToken + 1
    && m.leaseOwner == publisher && m.leaseUntil == now + ttl
  }

  lemma BatchHanded(messages: seq<Message>, rows: seq<OutboxRow>, chosen: seq<nat>, publisher: string, now: Time, ttl: int)
    requires Describes(messages, rows, chosen, publisher, now, ttl)
    ensures |messages| == |chosen|
    ensures forall k :: 0 <= k < |chosen| ==> chosen[k] < |rows| && Hands(messages[k], rows[chosen[k]], publisher, now, ttl)
  {
  }

  /** The row as the publication leaves it: dated, and nobody's. */
  predicate PublishedAt(row: OutboxRow, row': OutboxRow, now: Time) {
    && row'.publishedAt == Some(now) && row'.leaseOwner == None && row'.leaseUntil == None && row'.lastError == None
    && row' == row.(publishedAt := row'.publishedAt, leaseOwner := row'.leaseOwner, leaseUntil := row'.leaseUntil,
                    lastError := row'.lastError)
  }

  /** The row as a reschedule leaves it: due at the next date, with the error, and nobody's. */
  predicate DueFrom(row: OutboxRow, row': OutboxRow, next: Time, error: string) {
    && row'.nextAttemptAt == next && row'.leaseOwner == None && row'.leaseUntil == None && row'.lastError == Some(error)
    && row' == row.(nextAttemptAt := row'.nextAttemptAt, leaseOwner := row'.leaseOwner, leaseUntil := row'.leaseUntil,
                    lastError := row'.lastError)
  }

  /** The publisher's side of the table. */
  class Repository {
    var rows: seq<OutboxRow>

    constructor (rows: seq<OutboxRow>)
      ensures this.rows == rows
    {
      this.rows := rows;
    }

    /** The place of the soonest due row. */
    method Soonest(now: Time) returns (first: Option<nat>)
      requires Numbered(rows)
      ensures IsSoonest(rows, first, now)
    {
      first := None;
      for n := 0 to |rows|
        invariant first.None? ==> forall i :: 0 <= i < n ==> !Due(rows[i], now)
        invariant first.Some? ==>
                    && first.value < n && Due(rows[first.value], now)
                    && forall i :: 0 <= i < n && Due(rows[i], now) && i != first.value ==> Sooner(rows[first.value], rows[i])
      {
        if Due(rows[n], now) && (first.None? || Sooner(rows[n], rows[first.value])) {
          first := Some(n);
        }
      }
    }

    /** The statement that leases the soonest due rows. A leased row is not due, so the next pick is another one. */
    method LeaseRows(publisher: string, now: Time, ttl: int, limit: int)
      returns (messages: seq<Message>, ghost chosen: seq<nat>)
      requires Numbered(rows) && 0 < ttl && 0 <= limit
      modifies this
      ensures IsBatch(old(rows), chosen, now, limit)
      ensures rows == Leased(old(rows), chosen, publisher, now, ttl)
      ensures Describes(messages, old(rows), chosen, publisher, now, ttl)
    {
      messages, chosen := [], [];
      ghost var before := rows;
      LeasedNumbered(before, chosen, publisher, now, ttl);
      var next := Soonest(now);
      while |messages| < limit && next.Some?
        invariant IsSoonest(rows, next, now)
        invariant rows == Leased(before, chosen, publisher, now, ttl)
        invariant Picked(before, chosen, now) && |chosen| <= limit
        invariant Describes(messages, before, chosen, publisher, now, ttl)
        decreases limit - |messages|
      {
        var row := LeaseRow(rows[next.value], publisher, now, ttl);
        PickNext(before, chosen, rows, next.value, publisher, now, ttl);
        rows := rows[next.value := row];
        messages := messages + [MessageOf(row)];
        chosen := chosen + [next.value];
        LeasedNumbered(before, chosen, publisher, now, ttl);
        next := Soonest(now);
      }
      PickedAll(before, chosen, rows, publisher, now, ttl, limit);
    }

    method LeaseBatch(publisher: string, now: Time, ttl: int, limit: int)
      returns (answer: Result<seq<Message>, OutboxError>, ghost chosen: seq<nat>)
      requires Numbered(rows)
      modifies this
      ensures publisher == "" || ttl <= 0 || limit <= 0 ==> answer == Err(InvalidConfig) && rows == old(rows)
      ensures publisher != "" && 0 < ttl && 0 < limit ==>
                && IsBatch(old(rows), chosen, now, limit)
                && rows == Leased(old(rows), chosen, publisher, now, ttl)
                && (chosen == [] ==> answer == Err(NoMessages))
                && (chosen != [] ==> answer.Ok? && Describes(answer.value, old(rows), chosen, publisher, now, ttl))
    {
      chosen := [];
      if publisher == "" || ttl <= 0 || limit <= 0 {
        return Err(InvalidConfig), chosen;
      }
      var messages;
      messages, chosen := LeaseRows(publisher, now, ttl, limit);
      return if |messages| == 0 then Err(NoMessages) else Ok(messages), chosen;
    }

    method MarkPublished(id: nat, publisher: string, token: nat, now: Time) returns (answer: Result<(), OutboxError>)
      modifies this
      ensures rows == Published(old(rows), id, publisher, token, now)
      ensures |rows| == |old(rows)|
      ensures forall i :: 0 <= i < |rows| ==>
                var row := old(rows)[i];
                if row.id == id && row.publishedAt == None && row.leaseOwner == Some(publisher) && row.leaseToken == token
                   && row.leaseUntil.Some? && now < row.leaseUntil.value
                then PublishedAt(row, rows[i], now) else rows[i] == row
      ensures answer.Ok? ==> exists i :: 0 <= i < |rows| && Publishable(old(rows)[i], id, publisher, token, now)
      ensures answer.Err? && Numbered(old(rows)) ==> answer.error == TokenLost && rows == old(rows)
    {
      var affected := 0;
      ghost var before := rows;
      for n := 0 to |rows|
        invariant |rows| == |before|
        invariant forall i :: 0 <= i < n ==>
                    rows[i] == if Publishable(before[i], id, publisher, token, now) then PublishedRow(before[i], now) else before[i]
        invariant forall i :: n <= i < |rows| ==> rows[i] == before[i]
        invariant affected == 0 ==> forall i :: 0 <= i < n ==> !Publishable(before[i], id, publisher, token, now)
        invariant 0 < affected ==> exists i :: 0 <= i < n && Publishable(before[i], id, publisher, token, now)
        invariant Numbered(before) ==> 0 <= affected <= 1
      {
        if Publishable(rows[n], id, publisher, token, now) {
          rows := rows[n := PublishedRow(rows[n], now)];
          affected := affected + 1;
        }
      }
      return if affected == 1 then Ok(()) else Err(TokenLost);
    }

    method MarkRetry(id: nat, publisher: string, token: nat, next: Time, error: string) returns (answer: Result<(), OutboxError>)
      modifies this
      ensures rows == Retried(old(rows), id, publisher, token, next, error)
      ensures |rows| == |old(rows)|
      ensures forall i :: 0 <= i < |rows| ==>
                var row := old(rows)[i];
                if row.id == id && row.publishedAt == None && row.leaseOwner == Some(publisher) && row.leaseToken == token
                then DueFrom(row, rows[i], next, error) else rows[i] == row
      ensures answer.Ok? ==> exists i :: 0 <= i < |rows| && Answers(old(rows)[i], id, publisher, token)
      ensures answer.Err? && Numbered(old(rows)) ==> answer.error == TokenLost && rows == old(rows)
    {
      var affected := 0;
      ghost var before := rows;
      for n := 0 to |rows|
        invariant |rows| == |before|
        invariant forall i :: 0 <= i < n ==>
                    rows[i] == if Answers(before[i], id, publisher, token) then RetriedRow(before[i], next, error) else before[i]
        invariant forall i :: n <= i < |rows| ==> rows[i] == before[i]
        invariant affected == 0 ==> forall i :: 0 <= i < n ==> !Answers(before[i], id, publisher, token)
        invariant 0 < affected ==> exists i :: 0 <= i < n && Answers(before[i], id, publisher, token)
        invariant Numbered(before) ==> 0 <= affected <= 1
      {
        if Answers(rows[n], id, publisher, token) {
          rows := rows[n := RetriedRow(rows[n], next, error)];
          affected := affected + 1;
        }
      }
      return if affected == 1 then Ok(()) else Err(TokenLost);
    }
  }
}
